/** Deep copies that substitute variables in the strings at listed paths. */
module Copier {

  // ---------- variables in strings ----------

  predicate IsWordChar(c: char) {
    '0' <= c <= '9' || 'A' <= c <= 'Z' || 'a' <= c <= 'z' || c == '_'
  }

  ghost predicate IsWord(s: string) {
    s != "" && forall i :: 0 <= i < |s| ==> IsWordChar(s[i])
  }

  /** The length of the longest run of word characters at the start. */
  function WordRun(s: string): (n: nat)
    ensures n <= |s| && (forall i :: 0 <= i < n ==> IsWordChar(s[i])) && (n < |s| ==> !IsWordChar(s[n]))
  {
    if s == "" || !IsWordChar(s[0]) then 0 else 1 + WordRun(s[1..])
  }

  /** How much of a non-empty string is taken at once: a variable, which is a dollar sign with the longest run of word
      characters after it, or a single character. */
  function Head(template: string): (n: nat)
    requires template != ""
    ensures 1 <= n <= |template|
  {
    if template[0] == '$' then 1 + WordRun(template[1..]) else 1
  }

  /** A variable becomes its value, and a single character stays. */
  function Piece(token: string, f: string -> string): string {
    if |token| > 1 then f(token[1..]) else token
  }

  /** Replaces every variable from left to right. */
  function EvaluateString(template: string, f: string -> string): string {
    if template == "" then ""
    else Piece(template[..Head(template)], f) + EvaluateString(template[Head(template)..], f)
  }

  /** Every variable stands for itself. */
  ghost predicate KeepsVariables(f: string -> string) {
    forall p :: f(p) == "$" + p
  }

  lemma PieceKept(template: string, f: string -> string)
    requires template != "" && KeepsVariables(f)
    ensures Piece(template[..Head(template)], f) == template[..Head(template)]
  {
    var token := template[..Head(template)];
    assert |token| > 1 ==> token == "$" + token[1..];
  }

  /** Replacing each variable by itself changes nothing. */
  lemma {:induction false} EvaluateIdentity(template: string, f: string -> string)
    requires KeepsVariables(f)
    ensures EvaluateString(template, f) == template
  {
    hide KeepsVariables;
    hide Head;
    hide Piece;
    if template != "" {
      PieceKept(template, f);
      EvaluateIdentity(template[Head(template)..], f);
    }
  }

  /** Text without a dollar sign is kept. */
  lemma {:induction false} EvaluatePlain(template: string, f: string -> string)
    requires '$' !in template
    ensures EvaluateString(template, f) == template
  {
    if template != "" {
      assert template == [template[0]] + template[1..];
      EvaluatePlain(template[1..], f);
    }
  }

  lemma {:induction false} WordRunOf(word: string)
    requires forall i :: 0 <= i < |word| ==> IsWordChar(word[i])
    ensures WordRun(word) == |word|
  {
    if word != "" { WordRunOf(word[1..]); }
  }

  /** A single variable becomes its value. */
  lemma EvaluateVariable(word: string, f: string -> string)
    requires IsWord(word)
    ensures EvaluateString("$" + word, f) == f(word)
  {
    var t := "$" + word;
    assert t[1..] == word;
    WordRunOf(word);
    assert t[..Head(t)] == t && t[Head(t)..] == "";
  }

  lemma {:induction false} WordRunAppend(a: string, b: string)
    requires b == "" || !IsWordChar(b[0])
    ensures WordRun(a + b) == WordRun(a)
  {
    if a == "" {
      assert a + b == b;
    } else {
      assert (a + b)[1..] == a[1..] + b;
      WordRunAppend(a[1..], b);
    }
  }

  lemma HeadAppend(a: string, b: string)
    requires a != "" && (b == "" || !IsWordChar(b[0]))
    ensures Head(a + b) == Head(a)
  {
    hide WordRun;
    assert (a + b)[1..] == a[1..] + b;
    WordRunAppend(a[1..], b);
  }

  /** Strings are evaluated piece by piece, wherever the second piece does not continue a word. With the two lemmas above
      this determines the result for every string. */
  lemma {:induction false} EvaluateConcat(a: string, b: string, f: string -> string)
    requires b == "" || !IsWordChar(b[0])
    ensures EvaluateString(a + b, f) == EvaluateString(a, f) + EvaluateString(b, f)
    decreases |a|
  {
    hide Head;
    hide Piece;
    if a == "" {
      assert a + b == b;
    } else {
      HeadAppend(a, b);
      var n := Head(a);
      assert (a + b)[..n] == a[..n] && (a + b)[n..] == a[n..] + b;
      EvaluateConcat(a[n..], b, f);
    }
  }

  // ---------- values and paths ----------

  type FieldName = s: string | s != "" witness "F"

  datatype Field = Field(name: FieldName, exported: bool, value: Value)

  /** A value as reflection sees it. `Other` stands for numbers, booleans and everything else that is copied as a whole. */
  datatype Value =
    | Str(s: string)
    | Other(n: int)
    | Time(t: int)
    | NilPtr
    | Ptr(to: Value)
    | NilInterface
    | Interface(held: Value)
    | Struct(fields: seq<Field>)
    | NilSlice
    | Slice(items: seq<Value>)
    | NilMap
    | Map(entries: map<Value, Value>)

  /** What a new value of the same type holds. */
  function Zero(v: Value): Value {
    match v
    case Str(_) => Str("")
    case Other(_) => Other(0)
    case Time(_) => Time(0)
    case Ptr(_) => NilPtr
    case NilPtr => NilPtr
    case Interface(_) => NilInterface
    case NilInterface => NilInterface
    case Struct(fields) =>
      Struct(seq(|fields|, i requires 0 <= i < |fields| => Field(fields[i].name, fields[i].exported, Zero(fields[i].value))))
    case NilSlice => NilSlice
    case Slice(_) => NilSlice
    case NilMap => NilMap
    case Map(_) => NilMap
  }

  const VALUES: FieldName := "Values"
  const KEYS: FieldName := "Keys"
  const EVERYWHERE := "*"

  /** A path of components in its dotted form. */
  function Join(path: seq<FieldName>): string {
    if path == [] then "" else if |path| == 1 then path[0] else Join(path[..|path| - 1]) + "." + path[|path| - 1]
  }

  lemma {:induction false} JoinEmpty(path: seq<FieldName>)
    ensures Join(path) == "" <==> path == []
  {
  }

  /** Everything is listed, or the path itself or a path above it, component by component, the empty one included. */
  ghost predicate Covered(path: seq<FieldName>, listed: seq<string>) {
    EVERYWHERE in listed || exists n :: 0 <= n <= |path| && Join(path[..n]) in listed
  }

  lemma CoveredBelow(path: seq<FieldName>, name: FieldName, listed: seq<string>)
    ensures Covered(path + [name], listed) <==> Covered(path, listed) || Join(path + [name]) in listed
  {
    assert forall n :: 0 <= n <= |path| ==> (path + [name])[..n] == path[..n];
    assert (path + [name])[..|path| + 1] == path + [name];
  }

  // ---------- what a copy is ----------

  /** `c` is a copy of `v` found at `path`: strings are evaluated exactly at covered paths, fields that are not exported are
      left at zero, and every map entry comes from one of the original's and the other way round. */
  ghost predicate IsCopy(v: Value, c: Value, f: string -> string, path: seq<FieldName>, listed: seq<string>)
    decreases v, 1
  {
    match v
    case Str(s) => c == Str(if Covered(path, listed) then EvaluateString(s, f) else s)
    case Ptr(to) => c.Ptr? && IsCopy(to, c.to, f, path, listed)
    case Interface(held) => c.Interface? && IsCopy(held, c.held, f, path, listed)
    case Struct(fields) =>
      c.Struct? && |c.fields| == |fields| && forall i :: 0 <= i < |fields| ==> FieldCopied(v, i, c.fields[i], f, path, listed)
    case Slice(items) =>
      c.Slice? && |c.items| == |items| && forall i :: 0 <= i < |items| ==> IsCopy(items[i], c.items[i], f, path, listed)
    case Map(entries) =>
      && c.Map?
      && (forall k :: k in entries ==> KeyCopied(v, k, c.entries, f, path, listed))
      && (forall k' :: k' in c.entries ==> EntryFrom(v, k', c.entries[k'], f, path, listed))
    case _ => c == v
  }

  ghost predicate FieldCopied(v: Value, i: nat, c: Field, f: string -> string, path: seq<FieldName>,
                              listed: seq<string>)
    requires v.Struct? && i < |v.fields|
    decreases v, 0
  {
    var field := v.fields[i];
    && c.name == field.name && c.exported == field.exported
    && if field.exported then IsCopy(field.value, c.value, f, path + [field.name], listed) else c.value == Zero(field.value)
  }

  ghost predicate KeyCopied(v: Value, k: Value, copied: map<Value, Value>, f: string -> string, path: seq<FieldName>,
                            listed: seq<string>)
    requires v.Map? && k in v.entries
    decreases v, 0
  {
    exists k' :: k' in copied && IsCopy(k, k', f, path + [KEYS], listed)
  }

  ghost predicate EntryFrom(v: Value, k': Value, v': Value, f: string -> string, path: seq<FieldName>,
                            listed: seq<string>)
    requires v.Map?
    decreases v, 0
  {
    exists k :: k in v.entries && IsCopy(k, k', f, path + [KEYS], listed) && IsCopy(v.entries[k], v', f, path + [VALUES], listed)
  }

  // ---------- the copying methods ----------

  method AddToPath(path: string, name: FieldName, replaceIn: seq<string>) returns (newPath: string, found: bool)
    ensures newPath == if path == "" then name else path + "." + name
    ensures found <==> newPath in replaceIn || EVERYWHERE in replaceIn
  {
    newPath := if path == "" then name else path + "." + name;
    for i := 0 to |replaceIn|
      invariant newPath !in replaceIn[..i] && EVERYWHERE !in replaceIn[..i]
    {
      if replaceIn[i] == newPath || replaceIn[i] == EVERYWHERE {
        return newPath, true;
      }
    }
    assert replaceIn[..|replaceIn|] == replaceIn;
    found := false;
  }

  /** The list handed down stands for the original one: the same below paths not covered so far, "everywhere" below covered
      ones. */
  ghost predicate StandsFor(path: seq<FieldName>, listed: seq<string>, dotted: string, replaceIn: seq<string>) {
    && dotted == Join(path)
    && replaceIn == if Covered(path, listed) then [EVERYWHERE] else listed
  }

  /** The path and list for a component one level down. */
  method Descend(dotted: string, name: FieldName, replaceIn: seq<string>, ghost path: seq<FieldName>,
                 ghost listed: seq<string>)
    returns (newPath: string, newReplaceIn: seq<string>)
    requires StandsFor(path, listed, dotted, replaceIn)
    ensures StandsFor(path + [name], listed, newPath, newReplaceIn)
  {
    var found;
    newPath, found := AddToPath(dotted, name, replaceIn);
    newReplaceIn := if found then [EVERYWHERE] else replaceIn;
    JoinEmpty(path);
    assert (path + [name])[..|path|] == path;
    CoveredBelow(path, name, listed);
    assert newPath == Join(path + [name]);
  }

  method CopyRecursive(original: Value, f: string -> string, dotted: string, replaceIn: seq<string>,
                       ghost path: seq<FieldName>, ghost listed: seq<string>) returns (cpy: Value)
    requires StandsFor(path, listed, dotted, replaceIn)
    ensures IsCopy(original, cpy, f, path, listed)
    decreases original, 1
  {
    hide StandsFor;
    match original {
      case Ptr(to) =>
        var c := CopyRecursive(to, f, dotted, replaceIn, path, listed);
        cpy := Ptr(c);
      case Interface(held) =>
        var c := CopyRecursive(held, f, dotted, replaceIn, path, listed);
        cpy := Interface(c);
      case Struct(_) =>
        cpy := CopyFields(original, f, dotted, replaceIn, path, listed);
      case Slice(_) =>
        cpy := CopyItems(original, f, dotted, replaceIn, path, listed);
      case Map(_) =>
        cpy := CopyEntries(original, f, dotted, replaceIn, path, listed);
      case Str(s) =>
        var evaluate := EvaluateHere(dotted, replaceIn, path, listed);
        cpy := Str(if evaluate then EvaluateString(s, f) else s);
      case _ =>
        cpy := original;
    }
  }

  method EvaluateHere(dotted: string, replaceIn: seq<string>, ghost path: seq<FieldName>, ghost listed: seq<string>)
    returns (evaluate: bool)
    requires StandsFor(path, listed, dotted, replaceIn)
    ensures evaluate <==> Covered(path, listed)
  {
    for i := 0 to |replaceIn|
      invariant dotted !in replaceIn[..i] && EVERYWHERE !in replaceIn[..i]
    {
      if dotted == replaceIn[i] || replaceIn[i] == EVERYWHERE {
        assert path[..|path|] == path;
        return true;
      }
    }
    assert replaceIn[..|replaceIn|] == replaceIn;
    evaluate := false;
  }

  method CopyFields(original: Value, f: string -> string, dotted: string, replaceIn: seq<string>,
                    ghost path: seq<FieldName>, ghost listed: seq<string>) returns (cpy: Value)
    requires original.Struct? && StandsFor(path, listed, dotted, replaceIn)
    ensures IsCopy(original, cpy, f, path, listed)
    decreases original, 0
  {
    hide StandsFor;
    hide FieldCopied;
    var fields := original.fields;
    var copied: seq<Field> := Zero(original).fields;
    for i := 0 to |fields|
      invariant |copied| == |fields|
      invariant forall j :: i <= j < |fields| ==> copied[j] == Zero(original).fields[j]
      invariant forall j :: 0 <= j < i ==> FieldCopied(original, j, copied[j], f, path, listed)
    {
      if fields[i].exported {
        var newPath, newReplaceIn := Descend(dotted, fields[i].name, replaceIn, path, listed);
        var c := CopyRecursive(fields[i].value, f, newPath, newReplaceIn, path + [fields[i].name], listed);
        copied := copied[i := copied[i].(value := c)];
      }
      FieldIsCopied(original, i, copied[i], f, path, listed);
    }
    cpy := Struct(copied);
  }

  lemma FieldIsCopied(v: Value, i: nat, c: Field, f: string -> string, path: seq<FieldName>, listed: seq<string>)
    requires v.Struct? && i < |v.fields| && c.name == v.fields[i].name && c.exported == v.fields[i].exported
    requires
      if c.exported then IsCopy(v.fields[i].value, c.value, f, path + [c.name], listed) else c.value == Zero(v.fields[i].value)
    ensures FieldCopied(v, i, c, f, path, listed)
  {
  }

  method CopyItems(original: Value, f: string -> string, dotted: string, replaceIn: seq<string>,
                   ghost path: seq<FieldName>, ghost listed: seq<string>) returns (cpy: Value)
    requires original.Slice? && StandsFor(path, listed, dotted, replaceIn)
    ensures IsCopy(original, cpy, f, path, listed)
    decreases original, 0
  {
    hide StandsFor;
    var items := original.items;
    var copied := [];
    for i := 0 to |items|
      invariant |copied| == i
      invariant forall j :: 0 <= j < i ==> IsCopy(items[j], copied[j], f, path, listed)
    {
      var c := CopyRecursive(items[i], f, dotted, replaceIn, path, listed);
      copied := copied + [c];
    }
    cpy := Slice(copied);
  }

  /** Copies the entries in any order; an entry whose key was already copied from another replaces it. */
  method CopyEntries(original: Value, f: string -> string, dotted: string, replaceIn: seq<string>,
                     ghost path: seq<FieldName>, ghost listed: seq<string>) returns (cpy: Value)
    requires original.Map? && StandsFor(path, listed, dotted, replaceIn)
    ensures IsCopy(original, cpy, f, path, listed)
    decreases original, 0
  {
    hide StandsFor;
    hide KeyCopied;
    hide EntryFrom;
    var entries := original.entries;
    var copied: map<Value, Value> := map[];
    var todo := entries.Keys;
    while todo != {}
      invariant todo <= entries.Keys
      invariant forall k :: k in entries && k !in todo ==> KeyCopied(original, k, copied, f, path, listed)
      invariant forall k' :: k' in copied ==> EntryFrom(original, k', copied[k'], f, path, listed)
      decreases todo
    {
      var k :| k in todo;
      var valuePath, valueReplaceIn := Descend(dotted, VALUES, replaceIn, path, listed);
      var copyValue := CopyRecursive(entries[k], f, valuePath, valueReplaceIn, path + [VALUES], listed);
      var keyPath, keyReplaceIn := Descend(dotted, KEYS, replaceIn, path, listed);
      var copyKey := CopyRecursive(k, f, keyPath, keyReplaceIn, path + [KEYS], listed);
      EntryAdded(original, k, copied, copyKey, copyValue, f, path, listed);
      copied := copied[copyKey := copyValue];
      todo := todo - {k};
    }
    cpy := Map(copied);
  }

  lemma EntryAdded(v: Value, k: Value, copied: map<Value, Value>, k': Value, v': Value, f: string -> string,
                   path: seq<FieldName>, listed: seq<string>)
    requires v.Map? && k in v.entries
    requires IsCopy(k, k', f, path + [KEYS], listed) && IsCopy(v.entries[k], v', f, path + [VALUES], listed)
    ensures EntryFrom(v, k', v', f, path, listed)
    ensures forall j :: j in v.entries && (j == k || KeyCopied(v, j, copied, f, path, listed)) ==>
      KeyCopied(v, j, copied[k' := v'], f, path, listed)
  {
    hide IsCopy;
    assert k' in copied[k' := v'];
    forall j | j in v.entries && KeyCopied(v, j, copied, f, path, listed)
      ensures KeyCopied(v, j, copied[k' := v'], f, path, listed)
    {
      var j' :| j' in copied && IsCopy(j, j', f, path + [KEYS], listed);
      assert j' in copied[k' := v'];
    }
  }

  method CopyWithReplacements(src: Value, f: string -> string, replaceIn: seq<string>) returns (cpy: Value)
    ensures IsCopy(src, cpy, f, [], replaceIn)
    ensures Separate(src, f, [], replaceIn) ==> cpy == CopyOf(src, f, [], replaceIn)
  {
    var found := false;
    for i := 0 to |replaceIn|
      invariant !found && "" !in replaceIn[..i] && EVERYWHERE !in replaceIn[..i]
    {
      if replaceIn[i] == "" || replaceIn[i] == EVERYWHERE {
        found := true;
        break;
      }
    }
    assert replaceIn[..|replaceIn|] == replaceIn;
    var path: seq<FieldName> := [];
    assert path[..0] == [] && Join([]) == "";
    assert found <==> Covered([], replaceIn);
    cpy := CopyRecursive(src, f, "", if found then [EVERYWHERE] else replaceIn, [], replaceIn);
    if Separate(src, f, [], replaceIn) { ExactCopy(src, cpy, f, [], replaceIn); }
  }

  /** The plain copy equals its source just when the fields that are not exported hold zero values. */
  method Copy(src: Value) returns (cpy: Value)
    ensures IsCopy(src, cpy, p => p, [], [])
    ensures cpy == src <==> HiddenFieldsZero(src)
  {
    cpy := CopyWithReplacements(src, p => p, []);
    CopiesHideNothing(src, cpy, p => p, [], []);
    if HiddenFieldsZero(src) { KeptAsIs(src, cpy, p => p, [], []); }
  }

  // ---------- copies that change nothing ----------

  /** No field that is not exported holds anything but its zero value. */
  ghost predicate HiddenFieldsZero(v: Value)
    decreases v
  {
    match v
    case Ptr(to) => HiddenFieldsZero(to)
    case Interface(held) => HiddenFieldsZero(held)
    case Struct(fields) => forall i :: 0 <= i < |fields| ==>
        if fields[i].exported then HiddenFieldsZero(fields[i].value) else fields[i].value == Zero(fields[i].value)
    case Slice(items) => forall i :: 0 <= i < |items| ==> HiddenFieldsZero(items[i])
    case Map(entries) => forall k :: k in entries ==> HiddenFieldsZero(k) && HiddenFieldsZero(entries[k])
    case _ => true
  }

  lemma NothingListed(path: seq<FieldName>)
    ensures !Covered(path, [])
  {
  }

  ghost predicate Unchanging(f: string -> string, listed: seq<string>) {
    listed == [] || KeepsVariables(f)
  }

  /** A value without hidden contents is copied exactly when nothing is listed or every variable stands for itself: no map
      entry is lost either. */
  lemma {:induction false} KeptAsIs(v: Value, c: Value, f: string -> string, path: seq<FieldName>, listed: seq<string>)
    requires IsCopy(v, c, f, path, listed) && HiddenFieldsZero(v) && Unchanging(f, listed)
    ensures c == v
    decreases v, 1
  {
    hide Unchanging;
    if v.Str? {
      StringKept(v.s, f, path, listed);
    } else if v.Ptr? {
      KeptAsIs(v.to, c.to, f, path, listed);
    } else if v.Interface? {
      KeptAsIs(v.held, c.held, f, path, listed);
    } else if v.Struct? {
      FieldsKept(v, c, f, path, listed);
    } else if v.Slice? {
      forall i | 0 <= i < |v.items| ensures c.items[i] == v.items[i] {
        KeptAsIs(v.items[i], c.items[i], f, path, listed);
      }
    } else if v.Map? {
      EntriesKept(v, c, f, path, listed);
    }
  }

  lemma StringKept(s: string, f: string -> string, path: seq<FieldName>, listed: seq<string>)
    requires Unchanging(f, listed)
    ensures Covered(path, listed) ==> EvaluateString(s, f) == s
  {
    if listed == [] { NothingListed(path); } else { EvaluateIdentity(s, f); }
  }

  lemma {:induction false} FieldsKept(v: Value, c: Value, f: string -> string, path: seq<FieldName>,
                                      listed: seq<string>)
    requires v.Struct? && IsCopy(v, c, f, path, listed) && HiddenFieldsZero(v) && Unchanging(f, listed)
    ensures c == v
    decreases v, 0
  {
    hide Unchanging;
    forall i | 0 <= i < |v.fields| ensures c.fields[i] == v.fields[i] {
      assert FieldCopied(v, i, c.fields[i], f, path, listed);
      if v.fields[i].exported {
        KeptAsIs(v.fields[i].value, c.fields[i].value, f, path + [v.fields[i].name], listed);
      }
    }
  }

  lemma {:induction false} EntriesKept(v: Value, c: Value, f: string -> string, path: seq<FieldName>,
                                       listed: seq<string>)
    requires v.Map? && IsCopy(v, c, f, path, listed) && HiddenFieldsZero(v) && Unchanging(f, listed)
    ensures c == v
    decreases v, 0, 1
  {
    hide Unchanging;
    hide Covered;
    hide EntryFrom;
    hide KeyCopied;
    forall k | k in v.entries ensures k in c.entries {
      KeyKept(v, k, c.entries, f, path, listed);
    }
    forall k' | k' in c.entries ensures k' in v.entries && c.entries[k'] == v.entries[k'] {
      EntryKept(v, k', c.entries[k'], f, path, listed);
    }
  }

  lemma {:induction false} KeyKept(v: Value, k: Value, copied: map<Value, Value>, f: string -> string,
                                   path: seq<FieldName>, listed: seq<string>)
    requires v.Map? && k in v.entries && KeyCopied(v, k, copied, f, path, listed) && HiddenFieldsZero(v)
    requires Unchanging(f, listed)
    ensures k in copied
    decreases v, 0, 0
  {
    hide Unchanging;
    hide IsCopy;
    var k' :| k' in copied && IsCopy(k, k', f, path + [KEYS], listed);
    KeptAsIs(k, k', f, path + [KEYS], listed);
  }

  lemma {:induction false} EntryKept(v: Value, k': Value, v': Value, f: string -> string, path: seq<FieldName>,
                                     listed: seq<string>)
    requires v.Map? && EntryFrom(v, k', v', f, path, listed) && HiddenFieldsZero(v) && Unchanging(f, listed)
    ensures k' in v.entries && v.entries[k'] == v'
    decreases v, 0, 0
  {
    hide Unchanging;
    hide IsCopy;
    var k :| k in v.entries && IsCopy(k, k', f, path + [KEYS], listed) && IsCopy(v.entries[k], v', f, path + [VALUES], listed);
    KeptAsIs(k, k', f, path + [KEYS], listed);
    KeptAsIs(v.entries[k], v', f, path + [VALUES], listed);
  }

  lemma {:induction false} ZeroTwice(v: Value)
    ensures Zero(Zero(v)) == Zero(v)
    decreases v
  {
    if v.Struct? {
      forall i | 0 <= i < |v.fields| ensures Zero(Zero(v)).fields[i] == Zero(v).fields[i] {
        ZeroTwice(v.fields[i].value);
      }
    }
  }

  /** Whatever was substituted, a copy holds nothing in fields that are not exported. */
  lemma {:induction false} CopiesHideNothing(v: Value, c: Value, f: string -> string, path: seq<FieldName>,
                                             listed: seq<string>)
    requires IsCopy(v, c, f, path, listed)
    ensures HiddenFieldsZero(c)
    decreases v, 1
  {
    hide EntryFrom;
    hide KeyCopied;
    hide Covered;
    hide EvaluateString;
    if v.Ptr? {
      CopiesHideNothing(v.to, c.to, f, path, listed);
    } else if v.Interface? {
      CopiesHideNothing(v.held, c.held, f, path, listed);
    } else if v.Struct? {
      forall i | 0 <= i < |v.fields|
        ensures if c.fields[i].exported then HiddenFieldsZero(c.fields[i].value) else c.fields[i].value == Zero(c.fields[i].value)
      {
        assert FieldCopied(v, i, c.fields[i], f, path, listed);
        ZeroTwice(v.fields[i].value);
        if v.fields[i].exported {
          CopiesHideNothing(v.fields[i].value, c.fields[i].value, f, path + [v.fields[i].name], listed);
        }
      }
    } else if v.Slice? {
      forall i | 0 <= i < |v.items| ensures HiddenFieldsZero(c.items[i]) {
        CopiesHideNothing(v.items[i], c.items[i], f, path, listed);
      }
    } else if v.Map? {
      forall k' | k' in c.entries ensures HiddenFieldsZero(k') && HiddenFieldsZero(c.entries[k']) {
        EntryHidesNothing(v, k', c.entries[k'], f, path, listed);
      }
    }
  }

  lemma {:induction false} EntryHidesNothing(v: Value, k': Value, v': Value, f: string -> string, path: seq<FieldName>,
                                             listed: seq<string>)
    requires v.Map? && EntryFrom(v, k', v', f, path, listed)
    ensures HiddenFieldsZero(k') && HiddenFieldsZero(v')
    decreases v, 0
  {
    hide IsCopy;
    hide HiddenFieldsZero;
    var k :| k in v.entries && IsCopy(k, k', f, path + [KEYS], listed) && IsCopy(v.entries[k], v', f, path + [VALUES], listed);
    CopiesHideNothing(k, k', f, path + [KEYS], listed);
    CopiesHideNothing(v.entries[k], v', f, path + [VALUES], listed);
  }

  // ---------- the exact copy ----------

  /** No two keys of a map inside the value have the same copy. */
  ghost predicate Separate(v: Value, f: string -> string, path: seq<FieldName>, listed: seq<string>)
    decreases v, 0
  {
    match v
    case Ptr(to) => Separate(to, f, path, listed)
    case Interface(held) => Separate(held, f, path, listed)
    case Struct(fields) =>
      forall i :: 0 <= i < |fields| && fields[i].exported ==> Separate(fields[i].value, f, path + [fields[i].name], listed)
    case Slice(items) => forall i :: 0 <= i < |items| ==> Separate(items[i], f, path, listed)
    case Map(entries) =>
      && (forall k :: k in entries ==> Separate(k, f, path + [KEYS], listed) && Separate(entries[k], f, path + [VALUES], listed))
      && (forall j, k :: j in entries && k in entries && j != k ==>
            CopyOf(j, f, path + [KEYS], listed) != CopyOf(k, f, path + [KEYS], listed))
    case _ => true
  }

  ghost function CopyOf(v: Value, f: string -> string, path: seq<FieldName>, listed: seq<string>): Value
    requires Separate(v, f, path, listed)
    decreases v, 2
  {
    match v
    case Str(s) => Str(if Covered(path, listed) then EvaluateString(s, f) else s)
    case Ptr(to) => Ptr(CopyOf(to, f, path, listed))
    case Interface(held) => Interface(CopyOf(held, f, path, listed))
    case Struct(fields) =>
      Struct(seq(|fields|, i requires 0 <= i < |fields| => fields[i].(value :=
        if fields[i].exported then CopyOf(fields[i].value, f, path + [fields[i].name], listed) else Zero(fields[i].value))))
    case Slice(items) => Slice(seq(|items|, i requires 0 <= i < |items| => CopyOf(items[i], f, path, listed)))
    case Map(_) => Map(CopiedEntries(v, f, path, listed))
    case _ => v
  }

  ghost function CopiedEntries(v: Value, f: string -> string, path: seq<FieldName>,
                               listed: seq<string>): map<Value, Value>
    requires v.Map? && Separate(v, f, path, listed)
    decreases v, 1
  {
    map k | k in v.entries :: CopyOf(k, f, path + [KEYS], listed) := CopyOf(v.entries[k], f, path + [VALUES], listed)
  }

  lemma EntryInCopy(v: Value, k: Value, f: string -> string, path: seq<FieldName>, listed: seq<string>)
    requires v.Map? && Separate(v, f, path, listed) && k in v.entries
    ensures var copied, k' := CopiedEntries(v, f, path, listed), CopyOf(k, f, path + [KEYS], listed);
      k' in copied && copied[k'] == CopyOf(v.entries[k], f, path + [VALUES], listed)
  {
    hide CopyOf;
  }

  /** Where evaluated keys do not collide there is exactly one copy. */
  lemma {:induction false} ExactCopy(v: Value, c: Value, f: string -> string, path: seq<FieldName>, listed: seq<string>)
    requires Separate(v, f, path, listed)
    ensures IsCopy(v, c, f, path, listed) <==> c == CopyOf(v, f, path, listed)
    decreases v, 3
  {
    hide Covered;
    hide EvaluateString;
    if v.Ptr? {
      if c.Ptr? { ExactCopy(v.to, c.to, f, path, listed); }
    } else if v.Interface? {
      if c.Interface? { ExactCopy(v.held, c.held, f, path, listed); }
    } else if v.Struct? {
      ExactStruct(v, c, f, path, listed);
    } else if v.Slice? {
      ExactSlice(v, c, f, path, listed);
    } else if v.Map? {
      ExactMap(v, c, f, path, listed);
    }
  }

  lemma {:induction false} ExactStruct(v: Value, c: Value, f: string -> string, path: seq<FieldName>,
                                       listed: seq<string>)
    requires v.Struct? && Separate(v, f, path, listed)
    ensures IsCopy(v, c, f, path, listed) <==> c == CopyOf(v, f, path, listed)
    decreases v, 2
  {
    hide Covered;
    hide EvaluateString;
    if c.Struct? && |c.fields| == |v.fields| {
      forall i | 0 <= i < |v.fields|
        ensures FieldCopied(v, i, c.fields[i], f, path, listed) <==> c.fields[i] == CopyOf(v, f, path, listed).fields[i]
      {
        if v.fields[i].exported { ExactCopy(v.fields[i].value, c.fields[i].value, f, path + [v.fields[i].name], listed); }
      }
      hide FieldCopied;
    }
  }

  lemma {:induction false} ExactSlice(v: Value, c: Value, f: string -> string, path: seq<FieldName>,
                                      listed: seq<string>)
    requires v.Slice? && Separate(v, f, path, listed)
    ensures IsCopy(v, c, f, path, listed) <==> c == CopyOf(v, f, path, listed)
    decreases v, 2
  {
    hide Covered;
    hide EvaluateString;
    if c.Slice? && |c.items| == |v.items| {
      forall i | 0 <= i < |v.items|
        ensures IsCopy(v.items[i], c.items[i], f, path, listed) <==> c.items[i] == CopyOf(v, f, path, listed).items[i]
      {
        ExactCopy(v.items[i], c.items[i], f, path, listed);
      }
    }
  }

  /** The entry under `k'` is the copy of that under `k`. */
  ghost predicate EntryCopied(v: Value, k: Value, k': Value, v': Value, f: string -> string, path: seq<FieldName>,
                              listed: seq<string>)
    requires v.Map? && Separate(v, f, path, listed)
  {
    k in v.entries && k' == CopyOf(k, f, path + [KEYS], listed) && v' == CopyOf(v.entries[k], f, path + [VALUES], listed)
  }

  /** The copies of a map, entry by entry. */
  ghost predicate CopiesEntries(v: Value, copied: map<Value, Value>, f: string -> string, path: seq<FieldName>,
                                listed: seq<string>)
    requires v.Map? && Separate(v, f, path, listed)
  {
    && (forall k :: k in v.entries ==> CopyOf(k, f, path + [KEYS], listed) in copied)
    && (forall k' :: k' in copied ==> exists k :: EntryCopied(v, k, k', copied[k'], f, path, listed))
  }

  lemma {:induction false} ExactMap(v: Value, c: Value, f: string -> string, path: seq<FieldName>, listed: seq<string>)
    requires v.Map? && Separate(v, f, path, listed)
    ensures IsCopy(v, c, f, path, listed) <==> c == CopyOf(v, f, path, listed)
    decreases v, 2
  {
    hide CopiedEntries;
    hide CopiesEntries;
    hide KeyCopied;
    hide EntryFrom;
    hide Separate;
    if c.Map? {
      ExactEntries(v, c.entries, f, path, listed);
      ExactIsOnly(v, c.entries, f, path, listed);
    }
  }

  lemma ExactIsOnly(v: Value, copied: map<Value, Value>, f: string -> string, path: seq<FieldName>, listed: seq<string>)
    requires v.Map? && Separate(v, f, path, listed)
    ensures CopiesEntries(v, copied, f, path, listed) <==> copied == CopiedEntries(v, f, path, listed)
  {
    hide CopyOf;
    var exact := CopiedEntries(v, f, path, listed);
    forall k | k in v.entries
      ensures CopyOf(k, f, path + [KEYS], listed) in exact
      ensures EntryCopied(v, k, CopyOf(k, f, path + [KEYS], listed), exact[CopyOf(k, f, path + [KEYS], listed)], f, path, listed)
    {
      EntryInCopy(v, k, f, path, listed);
    }
    forall k' | k' in exact ensures exists k :: EntryCopied(v, k, k', exact[k'], f, path, listed) {
      var k :| k in v.entries && k' == CopyOf(k, f, path + [KEYS], listed);
      EntryInCopy(v, k, f, path, listed);
      assert EntryCopied(v, k, k', exact[k'], f, path, listed);
    }
    hide EntryCopied;
    assert CopiesEntries(v, exact, f, path, listed);
    if CopiesEntries(v, copied, f, path, listed) {
      hide CopiesEntries;
      SameEntries(v, copied, exact, f, path, listed);
    }
  }

  lemma SameEntries(v: Value, a: map<Value, Value>, b: map<Value, Value>, f: string -> string, path: seq<FieldName>,
                    listed: seq<string>)
    requires v.Map? && Separate(v, f, path, listed) && CopiesEntries(v, a, f, path, listed)
    requires CopiesEntries(v, b, f, path, listed)
    ensures a == b
  {
    EntriesWithin(v, a, b, f, path, listed);
    EntriesWithin(v, b, a, f, path, listed);
  }

  lemma EntriesWithin(v: Value, a: map<Value, Value>, b: map<Value, Value>, f: string -> string, path: seq<FieldName>,
                      listed: seq<string>)
    requires v.Map? && Separate(v, f, path, listed) && CopiesEntries(v, a, f, path, listed)
    requires CopiesEntries(v, b, f, path, listed)
    ensures forall k' :: k' in a ==> k' in b && b[k'] == a[k']
  {
    hide CopyOf;
    forall k' | k' in a ensures k' in b && b[k'] == a[k'] {
      var k :| EntryCopied(v, k, k', a[k'], f, path, listed);
      assert k' in b;
      var j :| EntryCopied(v, j, k', b[k'], f, path, listed);
      assert j == k;
    }
  }

  lemma {:induction false} ExactEntries(v: Value, copied: map<Value, Value>, f: string -> string, path: seq<FieldName>,
                                        listed: seq<string>)
    requires v.Map? && Separate(v, f, path, listed)
    ensures IsCopy(v, Map(copied), f, path, listed) <==> CopiesEntries(v, copied, f, path, listed)
    decreases v, 1
  {
    hide CopyOf;
    hide KeyCopied;
    hide EntryFrom;
    hide EntryCopied;
    forall k | k in v.entries
      ensures KeyCopied(v, k, copied, f, path, listed) <==> CopyOf(k, f, path + [KEYS], listed) in copied
    {
      ExactKey(v, k, copied, f, path, listed);
    }
    forall k' | k' in copied
      ensures EntryFrom(v, k', copied[k'], f, path, listed) <==> exists k :: EntryCopied(v, k, k', copied[k'], f, path, listed)
    {
      ExactEntry(v, k', copied[k'], f, path, listed);
    }
    hide Separate;
  }

  lemma {:induction false} ExactKey(v: Value, k: Value, copied: map<Value, Value>, f: string -> string,
                                    path: seq<FieldName>, listed: seq<string>)
    requires v.Map? && Separate(v, f, path, listed) && k in v.entries
    ensures KeyCopied(v, k, copied, f, path, listed) <==> CopyOf(k, f, path + [KEYS], listed) in copied
    decreases v, 0
  {
    assert Separate(k, f, path + [KEYS], listed);
    hide Separate;
    hide IsCopy;
    hide CopyOf;
    forall k' ensures IsCopy(k, k', f, path + [KEYS], listed) <==> k' == CopyOf(k, f, path + [KEYS], listed) {
      ExactCopy(k, k', f, path + [KEYS], listed);
    }
  }

  lemma {:induction false} ExactEntry(v: Value, k': Value, v': Value, f: string -> string, path: seq<FieldName>,
                                      listed: seq<string>)
    requires v.Map? && Separate(v, f, path, listed)
    ensures EntryFrom(v, k', v', f, path, listed) <==> exists k :: EntryCopied(v, k, k', v', f, path, listed)
    decreases v, 0
  {
    hide IsCopy;
    hide CopyOf;
    forall k | k in v.entries
      ensures EntryCopied(v, k, k', v', f, path, listed) <==>
        IsCopy(k, k', f, path + [KEYS], listed) && IsCopy(v.entries[k], v', f, path + [VALUES], listed)
    {
      ExactCopy(k, k', f, path + [KEYS], listed);
      ExactCopy(v.entries[k], v', f, path + [VALUES], listed);
    }
    hide Separate;
  }

  // ---------- strings inside a copy ----------

  /** A step into a value: to a field, an item, through a pointer or interface (0), or to a map's key or the value under it. */
  datatype Step = Index(i: nat) | UnderKey(key: Value) | KeyOf(key: Value)

  datatype Part = Absent | Found(value: Value)

  /** What is reached by one step, and the component that the step adds to the path. */
  ghost function Child(v: Value, step: Step): (part: (Part, seq<FieldName>))
    ensures part.0.Found? ==> part.0.value < v
  {
    match step
    case Index(i) =>
      (match v
       case Ptr(to) => if i == 0 then (Found(to), []) else (Absent, [])
       case Interface(held) => if i == 0 then (Found(held), []) else (Absent, [])
       case Struct(fields) =>
        if i < |fields| && fields[i].exported then (Found(fields[i].value), [fields[i].name]) else (Absent, [])
       case Slice(items) => if i < |items| then (Found(items[i]), []) else (Absent, [])
       case _ => (Absent, []))
    case UnderKey(key) => if v.Map? && key in v.entries then (Found(v.entries[key]), [VALUES]) else (Absent, [])
    case KeyOf(key) => if v.Map? && key in v.entries then (Found(key), [KEYS]) else (Absent, [])
  }

  ghost function At(v: Value, position: seq<Step>): Part
    decreases |position|
  {
    if position == [] then Found(v)
    else
      var child := Child(v, position[0]).0;
      if child.Found? then At(child.value, position[1..]) else Absent
  }

  /** The components of the path to a position. */
  ghost function PathTo(v: Value, position: seq<Step>): seq<FieldName>
    decreases |position|
  {
    if position == [] then []
    else
      var child := Child(v, position[0]);
      if child.0.Found? then child.1 + PathTo(child.0.value, position[1..]) else []
  }

  /** Keys do not collide in any map that the position leads through. */
  ghost predicate SeparateAlong(v: Value, position: seq<Step>, f: string -> string, path: seq<FieldName>,
                                listed: seq<string>)
    decreases |position|
  {
    position != [] ==>
      var child := Child(v, position[0]);
      child.0.Found? ==>
        && (v.Map? ==> Separate(v, f, path, listed))
        && SeparateAlong(child.0.value, position[1..], f, path + child.1, listed)
  }

  /** The step in the copy: map keys are copied themselves. */
  ghost function StepInCopy(v: Value, step: Step, f: string -> string, path: seq<FieldName>, listed: seq<string>): Step
    requires Child(v, step).0.Found? && (v.Map? ==> Separate(v, f, path, listed))
  {
    match step
    case Index(_) => step
    case UnderKey(key) => UnderKey(CopyOf(key, f, path + [KEYS], listed))
    case KeyOf(key) => KeyOf(CopyOf(key, f, path + [KEYS], listed))
  }

  ghost function InCopy(v: Value, position: seq<Step>, f: string -> string, path: seq<FieldName>,
                        listed: seq<string>): seq<Step>
    requires At(v, position).Found? && SeparateAlong(v, position, f, path, listed)
    decreases |position|
  {
    if position == [] then []
    else
      var child := Child(v, position[0]);
      [StepInCopy(v, position[0], f, path, listed)] + InCopy(child.0.value, position[1..], f, path + child.1, listed)
  }

  /** One step further, the copy has a copy of what the original has. */
  lemma {:induction false} CopiedChild(v: Value, c: Value, step: Step, f: string -> string, path: seq<FieldName>,
                                       listed: seq<string>)
    requires IsCopy(v, c, f, path, listed) && Child(v, step).0.Found? && (v.Map? ==> Separate(v, f, path, listed))
    ensures var child, copied := Child(v, step), Child(c, StepInCopy(v, step, f, path, listed));
      copied.0.Found? && IsCopy(child.0.value, copied.0.value, f, path + child.1, listed)
  {
    hide Covered;
    hide EvaluateString;
    assert path + [] == path;
    if v.Map? {
      hide IsCopy;
      CopiedEntry(v, c, step.key, f, path, listed);
      hide Separate;
      hide CopyOf;
    } else if v.Struct? {
      hide Separate;
      assert FieldCopied(v, step.i, c.fields[step.i], f, path, listed);
    } else {
      hide Separate;
    }
  }

  lemma {:induction false} CopiedEntry(v: Value, c: Value, k: Value, f: string -> string, path: seq<FieldName>,
                                       listed: seq<string>)
    requires v.Map? && Separate(v, f, path, listed) && IsCopy(v, c, f, path, listed) && k in v.entries
    ensures var k' := CopyOf(k, f, path + [KEYS], listed);
      && c.Map? && k' in c.entries && IsCopy(k, k', f, path + [KEYS], listed)
      && IsCopy(v.entries[k], c.entries[k'], f, path + [VALUES], listed)
  {
    hide IsCopy;
    hide CopiedEntries;
    ExactCopy(v, c, f, path, listed);
    EntryOfCopy(v, k, f, path, listed);
  }

  lemma {:induction false} EntryOfCopy(v: Value, k: Value, f: string -> string, path: seq<FieldName>,
                                       listed: seq<string>)
    requires v.Map? && Separate(v, f, path, listed) && k in v.entries
    ensures var k', exact := CopyOf(k, f, path + [KEYS], listed), CopiedEntries(v, f, path, listed);
      k' in exact && IsCopy(k, k', f, path + [KEYS], listed) && IsCopy(v.entries[k], exact[k'], f, path + [VALUES], listed)
  {
    EntryInCopy(v, k, f, path, listed);
    assert Separate(k, f, path + [KEYS], listed) && Separate(v.entries[k], f, path + [VALUES], listed);
    hide Separate;
    hide CopiedEntries;
    hide CopyOf;
    hide IsCopy;
    ExactCopy(k, CopyOf(k, f, path + [KEYS], listed), f, path + [KEYS], listed);
    ExactCopy(v.entries[k], CopyOf(v.entries[k], f, path + [VALUES], listed), f, path + [VALUES], listed);
  }

  /** A string anywhere inside, in fields, items, map values or map keys, is evaluated if and only if everything is listed or
      the dotted form of its path or of a path above it is; otherwise the copy has the very same string in its place. Only in
      maps that the position leads through must keys not collide. */
  lemma {:induction false} StringsAt(v: Value, c: Value, f: string -> string, path: seq<FieldName>,
                                     listed: seq<string>, position: seq<Step>)
    requires IsCopy(v, c, f, path, listed) && At(v, position).Found? && At(v, position).value.Str?
    requires SeparateAlong(v, position, f, path, listed)
    ensures var s := At(v, position).value.s;
      At(c, InCopy(v, position, f, path, listed)) ==
        Found(Str(if Covered(path + PathTo(v, position), listed) then EvaluateString(s, f) else s))
    decreases |position|
  {
    hide Covered;
    hide EvaluateString;
    hide Separate;
    if position == [] {
      assert path + [] == path;
    } else {
      var child := Child(v, position[0]);
      var step := StepInCopy(v, position[0], f, path, listed);
      CopiedChild(v, c, position[0], f, path, listed);
      hide IsCopy;
      StringsAt(child.0.value, Child(c, step).0.value, f, path + child.1, listed, position[1..]);
      assert path + child.1 + PathTo(child.0.value, position[1..]) == path + (child.1 + PathTo(child.0.value, position[1..]));
      var rest := InCopy(child.0.value, position[1..], f, path + child.1, listed);
      assert InCopy(v, position, f, path, listed) == [step] + rest;
      assert ([step] + rest)[1..] == rest;
    }
  }
}
