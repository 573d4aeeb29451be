/** Saving scheduler settings as a map of strings and reading them back. */
module Config {
  import opened Dependencies

  // ---------- numbers and truth values as strings ----------

  const MIN_INT := -0x8000_0000_0000_0000
  const MAX_INT := 0x7fff_ffff_ffff_ffff

  predicate InRange(n: int) {
    MIN_INT <= n <= MAX_INT
  }

  predicate IsDigit(c: char) {
    '0' <= c <= '9'
  }

  predicate AllDigits(s: string) {
    forall i :: 0 <= i < |s| ==> IsDigit(s[i])
  }

  function Digits(n: nat): string {
    var last := [('0' as int + n % 10) as char];
    if n < 10 then last else Digits(n / 10) + last
  }

  function Itoa(n: int): string {
    if n < 0 then "-" + Digits(-n) else Digits(n)
  }

  function DigitValue(c: char): nat
    requires IsDigit(c)
  {
    (c as int) - ('0' as int)
  }

  function DigitsValue(s: string): nat
    requires AllDigits(s)
  {
    if s == "" then 0 else 10 * DigitsValue(s[..|s| - 1]) + DigitValue(s[|s| - 1])
  }

  /** An optional sign and at least one digit, within the range of a machine integer. */
  function Atoi(s: string): Option<int> {
    var digits := if s != "" && (s[0] == '-' || s[0] == '+') then s[1..] else s;
    if digits == "" || !AllDigits(digits) then None
    else
      var n := if s[0] == '-' then 0 - DigitsValue(digits) else DigitsValue(digits);
      if InRange(n) then Some(n) else None
  }

  lemma {:induction false} DigitsRoundTrip(n: nat)
    ensures Digits(n) != "" && AllDigits(Digits(n)) && DigitsValue(Digits(n)) == n
  {
    var s := Digits(n);
    if n >= 10 {
      DigitsRoundTrip(n / 10);
      assert s[..|s| - 1] == Digits(n / 10);
    } else {
      assert s[..|s| - 1] == "";
    }
  }

  /** A printed number is read back, and a number outside the machine range is refused. */
  lemma IntRoundTrip(n: int)
    ensures Atoi(Itoa(n)) == (if InRange(n) then Some(n) else None) && Itoa(n) != ""
  {
    hide Digits;
    hide DigitsValue;
    if n < 0 {
      DigitsRoundTrip(-n);
      assert Itoa(n)[0] == '-' && Itoa(n)[1..] == Digits(-n);
    } else {
      DigitsRoundTrip(n);
      assert IsDigit(Itoa(n)[0]);
    }
  }

  function FormatBool(b: bool): string {
    if b then "true" else "false"
  }

  function ParseBool(s: string): Option<bool> {
    if s in ["1", "t", "T", "TRUE", "true", "True"] then Some(true)
    else if s in ["0", "f", "F", "FALSE", "false", "False"] then Some(false)
    else None
  }

  // ---------- the settings ----------

  /** How label selectors are printed and parsed, as their library does it. */
  datatype Selectors<!S> = Selectors(toString: S -> string, parse: string -> Option<S>)

  datatype Settings<S> = Settings(selector: S, concurrency: int, options: GraphOptions)

  const ARG_PREFIX := "arg."

  function ValueAt(cfg: map<string, string>, key: string): string {
    if key in cfg then cfg[key] else ""
  }

  /** A missing or empty number reads as zero. */
  function IntAt(cfg: map<string, string>, key: string): Option<int> {
    if ValueAt(cfg, key) == "" then Some(0) else Atoi(ValueAt(cfg, key))
  }

  /** A missing or empty flag reads as false. */
  function BoolAt(cfg: map<string, string>, key: string): Option<bool> {
    if ValueAt(cfg, key) == "" then Some(false) else ParseBool(ValueAt(cfg, key))
  }

  function ArgNames(cfg: map<string, string>): set<string> {
    set k | k in cfg && ARG_PREFIX <= k :: k[|ARG_PREFIX|..]
  }

  // ---------- saving ----------

  /** The saved form: ten named entries, one more for each argument, and nothing else. */
  ghost predicate SavedAs<S>(cfg: map<string, string>, s: Settings<S>, selectors: Selectors<S>) {
    && NamedSaved(cfg, s, selectors)
    && (forall a :: a in s.options.args ==> Saved(cfg, ARG_PREFIX + a, s.options.args[a]))
    && (forall k :: k in cfg && k !in NAMED_KEYS ==> ARG_PREFIX <= k && k[|ARG_PREFIX|..] in s.options.args)
  }

  const NAMED_KEYS: set<string> := {"selector", "concurrency", "flowName", "exportedOnly", "allowUndeclaredArgs", "replicaCount",
    "fixedNumberOfReplicas", "minReplicaCount", "maxReplicaCount", "allowDeleteExternalResources"}

  ghost predicate NamedSaved<S>(cfg: map<string, string>, s: Settings<S>, selectors: Selectors<S>) {
    && Saved(cfg, "selector", selectors.toString(s.selector))
    && Saved(cfg, "concurrency", Itoa(s.concurrency))
    && OptionsSaved(cfg, s.options)
  }

  ghost predicate Saved(cfg: map<string, string>, key: string, value: string) {
    key in cfg && cfg[key] == value
  }

  ghost predicate OptionsSaved(cfg: map<string, string>, o: GraphOptions) {
    && Saved(cfg, "flowName", o.flowName)
    && Saved(cfg, "exportedOnly", FormatBool(o.exportedOnly))
    && Saved(cfg, "allowUndeclaredArgs", FormatBool(o.allowUndeclaredArgs))
    && Saved(cfg, "replicaCount", Itoa(o.replicaCount))
    && Saved(cfg, "fixedNumberOfReplicas", FormatBool(o.fixedNumberOfReplicas))
    && Saved(cfg, "minReplicaCount", Itoa(o.minReplicaCount))
    && Saved(cfg, "maxReplicaCount", Itoa(o.maxReplicaCount))
    && Saved(cfg, "allowDeleteExternalResources", FormatBool(o.allowDeleteExternalResources))
  }

  function NamedEntries<S>(s: Settings<S>, selectors: Selectors<S>): map<string, string> {
    map[
      "selector" := selectors.toString(s.selector),
      "concurrency" := Itoa(s.concurrency),
      "flowName" := s.options.flowName,
      "exportedOnly" := FormatBool(s.options.exportedOnly),
      "allowUndeclaredArgs" := FormatBool(s.options.allowUndeclaredArgs),
      "replicaCount" := Itoa(s.options.replicaCount),
      "fixedNumberOfReplicas" := FormatBool(s.options.fixedNumberOfReplicas),
      "minReplicaCount" := Itoa(s.options.minReplicaCount),
      "maxReplicaCount" := Itoa(s.options.maxReplicaCount),
      "allowDeleteExternalResources" := FormatBool(s.options.allowDeleteExternalResources)
    ]
  }

  lemma NamedEntriesSaved<S>(s: Settings<S>, selectors: Selectors<S>)
    ensures NamedSaved(NamedEntries(s, selectors), s, selectors) && NamedEntries(s, selectors).Keys == NAMED_KEYS
  {
    hide Itoa;
    hide FormatBool;
  }

  lemma ArgumentKey(a: string)
    ensures ARG_PREFIX <= ARG_PREFIX + a && (ARG_PREFIX + a)[|ARG_PREFIX|..] == a && ARG_PREFIX + a !in NAMED_KEYS
  {
    assert (ARG_PREFIX + a)[3] == '.';
    assert forall k :: k in NAMED_KEYS ==> k[3] != '.';
  }

  method Serialize<S>(s: Settings<S>, selectors: Selectors<S>) returns (result: map<string, string>)
    ensures SavedAs(result, s, selectors)
  {
    hide NamedSaved;
    result := NamedEntries(s, selectors);
    NamedEntriesSaved(s, selectors);
    result := AddArgs(result, s, selectors);
  }

  method AddArgs<S>(named: map<string, string>, s: Settings<S>,
                    selectors: Selectors<S>) returns (result: map<string, string>)
    requires NamedSaved(named, s, selectors) && named.Keys == NAMED_KEYS
    ensures SavedAs(result, s, selectors)
  {
    hide NamedSaved;
    hide NAMED_KEYS;
    var args := s.options.args;
    result := named;
    var todo := args.Keys;
    while todo != {}
      invariant todo <= args.Keys
      invariant forall k :: k in named ==> Saved(result, k, named[k])
      invariant forall a :: a in args && a !in todo ==> Saved(result, ARG_PREFIX + a, args[a])
      invariant forall k :: k in result && k !in named ==> ARG_PREFIX <= k && k[|ARG_PREFIX|..] in args
      decreases todo
    {
      var a :| a in todo;
      ArgumentKey(a);
      DifferentArguments(a);
      result := result[ARG_PREFIX + a := args[a]];
      todo := todo - {a};
    }
    KeepsNamed(named, result, s, selectors);
  }

  lemma DifferentArguments(a: string)
    ensures forall b :: ARG_PREFIX + b == ARG_PREFIX + a ==> b == a
  {
    forall b | ARG_PREFIX + b == ARG_PREFIX + a ensures b == a {
      ArgumentKey(a);
      ArgumentKey(b);
    }
  }

  lemma KeepsNamed<S>(named: map<string, string>, cfg: map<string, string>, s: Settings<S>, selectors: Selectors<S>)
    requires NamedSaved(named, s, selectors) && forall k :: k in named ==> Saved(cfg, k, named[k])
    ensures NamedSaved(cfg, s, selectors)
  {
    hide Itoa;
    hide FormatBool;
  }

  // ---------- reading ----------

  method GetInt(cfg: map<string, string>, key: string) returns (ok: bool, out: int)
    ensures ok <==> IntAt(cfg, key).Some?
    ensures ok ==> IntAt(cfg, key) == Some(out)
  {
    var val := ValueAt(cfg, key);
    if val == "" {
      return true, 0;
    }
    match Atoi(val) {
      case Some(n) => return true, n;
      case None => return false, 0;
    }
  }

  method GetBool(cfg: map<string, string>, key: string) returns (ok: bool, out: bool)
    ensures ok <==> BoolAt(cfg, key).Some?
    ensures ok ==> BoolAt(cfg, key) == Some(out)
  {
    var val := ValueAt(cfg, key);
    if val == "" {
      return true, false;
    }
    match ParseBool(val) {
      case Some(b) => return true, b;
      case None => return false, false;
    }
  }

  method GetArgs(cfg: map<string, string>) returns (args: map<string, string>)
    ensures args.Keys == ArgNames(cfg) && forall a :: a in args ==> Saved(cfg, ARG_PREFIX + a, args[a])
  {
    args := map[];
    var todo := cfg.Keys;
    while todo != {}
      invariant todo <= cfg.Keys
      invariant forall a :: a in args <==> ARG_PREFIX + a in cfg && ARG_PREFIX + a !in todo
      invariant forall a :: a in args ==> Saved(cfg, ARG_PREFIX + a, args[a])
      decreases todo
    {
      var key :| key in todo;
      if ARG_PREFIX <= key {
        assert key == ARG_PREFIX + key[|ARG_PREFIX|..];
        args := args[key[|ARG_PREFIX|..] := cfg[key]];
      }
      todo := todo - {key};
    }
    forall a ensures a in args <==> a in ArgNames(cfg) {
      NamesArgument(cfg, a);
    }
  }

  lemma NamesArgument(cfg: map<string, string>, a: string)
    ensures a in ArgNames(cfg) <==> ARG_PREFIX + a in cfg
  {
    assert (ARG_PREFIX + a)[|ARG_PREFIX|..] == a;
    assert ARG_PREFIX <= ARG_PREFIX + a;
    if a in ArgNames(cfg) {
      var k :| k in cfg && ARG_PREFIX <= k && k[|ARG_PREFIX|..] == a;
      assert k == ARG_PREFIX + a;
    }
  }

  /** Whether every entry that is read can be. */
  predicate Readable<S>(cfg: map<string, string>, selectors: Selectors<S>) {
    && selectors.parse(ValueAt(cfg, "selector")).Some?
    && IntAt(cfg, "concurrency").Some?
    && BoolAt(cfg, "exportedOnly").Some? && BoolAt(cfg, "allowUndeclaredArgs").Some?
    && IntAt(cfg, "replicaCount").Some? && BoolAt(cfg, "fixedNumberOfReplicas").Some?
    && IntAt(cfg, "minReplicaCount").Some? && IntAt(cfg, "maxReplicaCount").Some?
    && BoolAt(cfg, "allowDeleteExternalResources").Some?
  }

  /** The settings a readable map stands for. Nothing is read into the flag for undeclared arguments. */
  ghost predicate ReadAs<S>(cfg: map<string, string>, s: Settings<S>, selectors: Selectors<S>)
    requires Readable(cfg, selectors)
  {
    var o := s.options;
    && Some(s.selector) == selectors.parse(ValueAt(cfg, "selector"))
    && Some(s.concurrency) == IntAt(cfg, "concurrency")
    && o.flowName == (if ValueAt(cfg, "flowName") == "" then DEFAULT_FLOW_NAME else ValueAt(cfg, "flowName"))
    && Some(o.exportedOnly) == BoolAt(cfg, "exportedOnly") && !o.allowUndeclaredArgs
    && Some(o.replicaCount) == IntAt(cfg, "replicaCount") && Some(o.fixedNumberOfReplicas) == BoolAt(cfg, "fixedNumberOfReplicas")
    && Some(o.minReplicaCount) == IntAt(cfg, "minReplicaCount") && Some(o.maxReplicaCount) == IntAt(cfg, "maxReplicaCount")
    && Some(o.allowDeleteExternalResources) == BoolAt(cfg, "allowDeleteExternalResources")
    && o.flowInstanceName == "" && !o.silent
    && o.args.Keys == ArgNames(cfg) && forall a :: a in o.args ==> Saved(cfg, ARG_PREFIX + a, o.args[a])
  }

  method FromConfig<S>(cfg: map<string, string>, selectors: Selectors<S>) returns (result: Option<Settings<S>>)
    ensures result.Some? <==> Readable(cfg, selectors)
    ensures result.Some? ==> ReadAs(cfg, result.value, selectors)
  {
    hide IntAt;
    hide BoolAt;
    hide ArgNames;
    var ok, concurrency, replicaCount, minReplicaCount, maxReplicaCount;
    var exportedOnly, allowDeleteExternalResources, fixedNumberOfReplicas;
    var selector := selectors.parse(ValueAt(cfg, "selector"));
    if selector.None? { return None; }
    ok, concurrency := GetInt(cfg, "concurrency");
    if !ok { return None; }
    var flowName := ValueAt(cfg, "flowName");
    ok, exportedOnly := GetBool(cfg, "exportedOnly");
    if !ok { return None; }
    // read into the wrong field, which is overwritten below
    ok, allowDeleteExternalResources := GetBool(cfg, "allowUndeclaredArgs");
    if !ok { return None; }
    ok, replicaCount := GetInt(cfg, "replicaCount");
    if !ok { return None; }
    ok, fixedNumberOfReplicas := GetBool(cfg, "fixedNumberOfReplicas");
    if !ok { return None; }
    ok, minReplicaCount := GetInt(cfg, "minReplicaCount");
    if !ok { return None; }
    ok, maxReplicaCount := GetInt(cfg, "maxReplicaCount");
    if !ok { return None; }
    ok, allowDeleteExternalResources := GetBool(cfg, "allowDeleteExternalResources");
    if !ok { return None; }
    var args := GetArgs(cfg);
    if flowName == "" {
      flowName := DEFAULT_FLOW_NAME;
    }
    result := Some(Settings(selector.value, concurrency, GraphOptions(
      flowName, args, exportedOnly, false, replicaCount, fixedNumberOfReplicas, minReplicaCount, maxReplicaCount,
      allowDeleteExternalResources, "", false)));
  }

  // ---------- the round trip ----------

  /** What is left of options after saving and reading. */
  function Restored(o: GraphOptions): GraphOptions {
    o.(flowName := if o.flowName == "" then DEFAULT_FLOW_NAME else o.flowName,
       allowUndeclaredArgs := false, flowInstanceName := "", silent := false)
  }

  ghost predicate MachineSized<S>(s: Settings<S>) {
    && InRange(s.concurrency) && InRange(s.options.replicaCount)
    && InRange(s.options.minReplicaCount) && InRange(s.options.maxReplicaCount)
  }

  lemma SavedInt(cfg: map<string, string>, key: string, n: int)
    requires Saved(cfg, key, Itoa(n)) && InRange(n)
    ensures IntAt(cfg, key) == Some(n)
  {
    IntRoundTrip(n);
  }

  lemma SavedBool(cfg: map<string, string>, key: string, b: bool)
    requires Saved(cfg, key, FormatBool(b))
    ensures BoolAt(cfg, key) == Some(b)
  {
  }

  /** Saved options are always readable, and read back as they were up to the four things that are not kept: the empty flow
      name, the flag for undeclared arguments, the flow instance and silence. */
  lemma OptionsRoundTrip<S>(cfg: map<string, string>, saved: Settings<S>, read: Settings<S>, selectors: Selectors<S>)
    requires SavedAs(cfg, saved, selectors) && MachineSized(saved)
    requires selectors.parse(selectors.toString(saved.selector)) == Some(saved.selector)
    ensures Readable(cfg, selectors)
    ensures ReadAs(cfg, read, selectors) ==> read == saved.(options := Restored(saved.options))
    ensures ReadAs(cfg, read, selectors) ==>
      (read == saved <==>
       && saved.options.flowName != "" && !saved.options.allowUndeclaredArgs
       && saved.options.flowInstanceName == "" && !saved.options.silent)
  {
    hide Itoa;
    hide FormatBool;
    hide IntAt;
    hide BoolAt;
    hide ArgNames;
    var o := saved.options;
    SavedInt(cfg, "concurrency", saved.concurrency);
    SavedInt(cfg, "replicaCount", o.replicaCount);
    SavedInt(cfg, "minReplicaCount", o.minReplicaCount);
    SavedInt(cfg, "maxReplicaCount", o.maxReplicaCount);
    SavedBool(cfg, "exportedOnly", o.exportedOnly);
    SavedBool(cfg, "allowUndeclaredArgs", o.allowUndeclaredArgs);
    SavedBool(cfg, "fixedNumberOfReplicas", o.fixedNumberOfReplicas);
    SavedBool(cfg, "allowDeleteExternalResources", o.allowDeleteExternalResources);
    if ReadAs(cfg, read, selectors) {
      ArgsRoundTrip(cfg, saved, read, selectors);
    }
  }

  lemma ArgsRoundTrip<S>(cfg: map<string, string>, saved: Settings<S>, read: Settings<S>, selectors: Selectors<S>)
    requires SavedAs(cfg, saved, selectors)
    requires read.options.args.Keys == ArgNames(cfg)
    requires forall a :: a in read.options.args ==> Saved(cfg, ARG_PREFIX + a, read.options.args[a])
    ensures read.options.args == saved.options.args
  {
    hide ArgNames;
    hide NamedSaved;
    hide NAMED_KEYS;
    forall a ensures a in ArgNames(cfg) <==> a in saved.options.args {
      NamesArgument(cfg, a);
      ArgumentKey(a);
    }
  }

  /** Saving and reading, as one operation. */
  method SaveAndRead<S>(s: Settings<S>, selectors: Selectors<S>) returns (result: Option<Settings<S>>)
    requires MachineSized(s) && selectors.parse(selectors.toString(s.selector)) == Some(s.selector)
    ensures result == Some(s.(options := Restored(s.options)))
  {
    hide SavedAs;
    hide Readable;
    hide ReadAs;
    var cfg := Serialize(s, selectors);
    result := FromConfig(cfg, selectors);
    OptionsRoundTrip(cfg, s, s, selectors);
    OptionsRoundTrip(cfg, s, result.value, selectors);
  }
}
