/** The vehicle class table: display names of vehicle models mapped to a class name
    ("Car", ...), read from a label file of `model,class` lines.

    The file itself is not read here: the table is built from its lines. */
module VehicleTable {

  type Table = map<string, string>

  /** The class reported for a model name that is not in the table. */
  const UnknownType: string := "Unknown"

  predicate IsAlpha(c: char) {
    'a' <= c <= 'z' || 'A' <= c <= 'Z'
  }

  predicate IsLowerAlpha(c: char) {
    'a' <= c <= 'z'
  }

  /** Whitespace as the stream extraction operator skips it. */
  predicate IsSpace(c: char) {
    c == ' ' || c == '\t' || c == '\n' || c == '\r' || c == '\U{0B}' || c == '\U{0C}'
  }

  function ToLower(c: char): (r: char)
    ensures IsAlpha(c) ==> IsLowerAlpha(r)
    ensures !('A' <= c <= 'Z') ==> r == c
  {
    if 'A' <= c <= 'Z' then (c as int - 'A' as int + 'a' as int) as char else c
  }

  function Lower(s: string): (r: string)
    ensures |r| == |s|
    ensures forall i :: 0 <= i < |s| ==> r[i] == ToLower(s[i])
  {
    if s == [] then [] else [ToLower(s[0])] + Lower(s[1..])
  }

  /** The string with every non-letter removed, the letters kept in order. */
  function LettersOnly(s: string): (r: string)
    ensures |r| <= |s|
    ensures forall c :: c in r ==> IsAlpha(c) && c in s
  {
    if s == [] then []
    else if IsAlpha(s[0]) then [s[0]] + LettersOnly(s[1..])
    else LettersOnly(s[1..])
  }

  /** A query name as the lookup normalises it: lower-cased, then letters only. */
  function Normalize(name: string): string {
    LettersOnly(Lower(name))
  }

  /** A line split at its first comma: the part before it, and the rest after it
      (empty when the line has no comma). */
  function SplitAtComma(line: string): (r: (string, string))
    ensures r.0 + (if |r.0| < |line| then [','] + r.1 else []) == line
    ensures ',' !in r.0
  {
    if line == [] then ([], [])
    else if line[0] == ',' then ([], line[1..])
    else
      var rest := SplitAtComma(line[1..]);
      ([line[0]] + rest.0, rest.1)
  }

  function SkipSpaces(s: string): (r: string)
    ensures |r| <= |s| && r == s[|s| - |r|..]
    ensures r != [] ==> !IsSpace(r[0])
  {
    if s != [] && IsSpace(s[0]) then SkipSpaces(s[1..]) else s
  }

  function TakeWord(s: string): (r: string)
    ensures |r| <= |s| && r == s[..|r|]
    ensures forall c :: c in r ==> !IsSpace(c)
    ensures |r| < |s| ==> IsSpace(s[|r|])
  {
    if s == [] || IsSpace(s[0]) then [] else [s[0]] + TakeWord(s[1..])
  }

  /** The first whitespace-delimited word of a string (empty when there is none). */
  function FirstWord(s: string): string {
    TakeWord(SkipSpaces(s))
  }

  /** The model name (letters only) and the class name of one line. */
  function ParseLine(line: string): (string, string) {
    var parts := SplitAtComma(line);
    (LettersOnly(parts.0), FirstWord(parts.1))
  }

  /** The keys registered for one model name: the name, then up to three names each
      one letter shorter than the previous, each made only while the previous one
      has at least two letters. */
  function Keys(model: string): seq<string> {
    var k1 := if |model| >= 2 then [model[..|model| - 1]] else [];
    var m1 := if |model| >= 2 then model[..|model| - 1] else model;
    var k2 := if |m1| >= 2 then [m1[..|m1| - 1]] else [];
    var m2 := if |m1| >= 2 then m1[..|m1| - 1] else m1;
    var k3 := if |m2| >= 2 then [m2[..|m2| - 1]] else [];
    [model] + k1 + k2 + k3
  }

  /** An insertion that leaves an existing key alone. */
  function InsertFirst(t: Table, k: string, v: string): Table {
    if k in t then t else t[k := v]
  }

  function InsertAll(t: Table, ks: seq<string>, v: string): Table
    decreases |ks|
  {
    if ks == [] then t else InsertAll(InsertFirst(t, ks[0], v), ks[1..], v)
  }

  /** The table after one line of the label file. */
  function AddLine(t: Table, line: string): Table {
    var (model, vehicleType) := ParseLine(line);
    InsertAll(t, Keys(model), vehicleType)
  }

  /** The table after a sequence of lines, in order. */
  function AddLines(t: Table, lines: seq<string>): Table
    decreases |lines|
  {
    if lines == [] then t else AddLines(AddLine(t, lines[0]), lines[1..])
  }

  /** The class for a display name: the name is normalised and looked up. */
  function LookupType(t: Table, displayName: string): (r: (bool, string))
    ensures r.0 <==> Normalize(displayName) in t
    ensures r.0 ==> r.1 == t[Normalize(displayName)]
    ensures !r.0 ==> r.1 == UnknownType
  {
    var key := Normalize(displayName);
    if key in t then (true, t[key]) else (false, UnknownType)
  }

  // ===========================================================================
  // Properties
  // ===========================================================================

  /** The keys of a model name are the name and its truncations by 1, 2 and 3
      letters, as many as leave at least one letter (all four from 4 letters on). */
  lemma {:induction false} KeysAreTruncations(model: string)
    ensures |Keys(model)| == (if |model| <= 1 then 1 else if |model| >= 4 then 4 else |model|)
    ensures forall i :: 0 <= i < |Keys(model)| ==> Keys(model)[i] == model[..|model| - i]
  {
    var ks := Keys(model);
    forall i | 0 <= i < |ks|
      ensures ks[i] == model[..|model| - i]
    {
      if i == 0 {
        assert model[..|model|] == model;
      }
    }
  }

  /** Inserting a list of keys keeps every earlier entry, adds exactly the new keys,
      and gives each new key the inserted value. */
  lemma {:induction false} InsertAllSpec(t: Table, ks: seq<string>, v: string)
    ensures InsertAll(t, ks, v).Keys == t.Keys + set k | k in ks
    ensures forall k :: k in t ==> InsertAll(t, ks, v)[k] == t[k]
    ensures forall k :: k in ks && k !in t ==> InsertAll(t, ks, v)[k] == v
    decreases |ks|
  {
    if ks != [] {
      var t1 := InsertFirst(t, ks[0], v);
      InsertAllSpec(t1, ks[1..], v);
      assert forall k :: k in ks <==> k == ks[0] || k in ks[1..];
    }
  }

  /** Later lines never change the class of a key registered by an earlier line. */
  lemma {:induction false} AddLinesKeepsEarlier(t: Table, lines: seq<string>)
    ensures t.Keys <= AddLines(t, lines).Keys
    ensures forall k :: k in t ==> AddLines(t, lines)[k] == t[k]
    decreases |lines|
  {
    if lines != [] {
      var (model, vehicleType) := ParseLine(lines[0]);
      InsertAllSpec(t, Keys(model), vehicleType);
      AddLinesKeepsEarlier(AddLine(t, lines[0]), lines[1..]);
    }
  }

  /** A normalised name holds only lower-case letters. */
  lemma {:induction false} NormalizedIsLower(name: string)
    ensures forall c :: c in Normalize(name) ==> IsLowerAlpha(c)
  {
    var low := Lower(name);
    forall c | c in Normalize(name)
      ensures IsLowerAlpha(c)
    {
      assert c in low && IsAlpha(c);
      var i :| 0 <= i < |low| && low[i] == c;
      assert ToLower(name[i]) == c;
    }
  }

  /** Keys are stripped of non-letters but not lower-cased, while queries are: a key
      holding an upper-case letter can never be found, whatever the query. */
  lemma {:induction false} CapitalKeyNeverMatches(t: Table, key: string, displayName: string)
    requires exists c :: c in key && 'A' <= c <= 'Z'
    ensures Normalize(displayName) != key
  {
    NormalizedIsLower(displayName);
  }

  /** A label line registers its model name and the names one, two and three
      letters shorter: each of them, queried in lower case, resolves to the line's
      class when the table did not hold it before (so "civiccar,Car" makes "civic"
      a Car). A name four or more letters shorter is not registered. */
  lemma {:induction false} TruncationsResolve(t: Table, model: string, cls: string, k: nat)
    requires forall c :: c in model ==> IsLowerAlpha(c)
    requires forall c :: c in cls ==> !IsSpace(c)
    requires k <= 3 && (k == 0 || k < |model|)
    requires model[..|model| - k] !in t
    ensures LookupType(AddLine(t, model + [','] + cls), model[..|model| - k]) == (true, cls)
  {
    var key := model[..|model| - k];
    var ks := Keys(model);
    AddLineIs(t, model, cls);
    KeysAreTruncations(model);
    assert ks[k] == key;
    InsertAllSpec(t, ks, cls);
    PrefixLower(model, |model| - k);
    LookupKey(InsertAll(t, ks, cls), key);
  }

  /** A name four or more letters shorter than the model name of a label line is
      not registered by it. */
  lemma {:induction false} TooShortNotRegistered(model: string, cls: string, n: nat)
    requires forall c :: c in model ==> IsLowerAlpha(c)
    requires forall c :: c in cls ==> !IsSpace(c)
    requires n + 4 <= |model|
    ensures LookupType(AddLine(map[], model + [','] + cls), model[..n]) == (false, UnknownType)
  {
    var ks := Keys(model);
    AddLineIs(map[], model, cls);
    KeysAreTruncations(model);
    InsertAllSpec(map[], ks, cls);
    PrefixLower(model, n);
    forall i | 0 <= i < |ks|
      ensures ks[i] != model[..n]
    {
      assert |ks[i]| == |model| - i;
    }
    LookupKey(InsertAll(map[], ks, cls), model[..n]);
  }

  /** As written, a model name can be shadowed by a longer name listed before it:
      "civiccar,Car" registers "civic" as a truncation, so the later line
      "civic,Bike" leaves "civic" a Car. */
  lemma {:induction false} TruncationShadowsLaterModel()
    ensures LookupType(AddLines(map[], ["civiccar,Car", "civic,Bike"]), "civic") == (true, "Car")
  {
    var lines := ["civiccar,Car", "civic,Bike"];
    CivicIsLowerAlpha();
    assert lines[0] == "civiccar" + [','] + "Car";
    ShadowedByLongerModel("civiccar", "Car", lines, 3);
    assert "civiccar"[..5] == "civic";
    NormalizeLower("civic");
  }

  /** The truncations of the first line's model name keep its class, whatever
      lines follow, even a line naming one of those truncations as its own model. */
  lemma {:induction false} ShadowedByLongerModel(model: string, cls: string, lines: seq<string>, k: nat)
    requires forall c :: c in model ==> IsLowerAlpha(c)
    requires forall c :: c in cls ==> !IsSpace(c)
    requires 1 <= k <= 3 && k < |model|
    requires lines != [] && lines[0] == model + [','] + cls
    ensures LookupType(AddLines(map[], lines), model[..|model| - k]) == (true, cls)
  {
    var t1 := AddLine(map[], lines[0]);
    TruncationsResolve(map[], model, cls, k);
    AddLinesKeepsEarlier(t1, lines[1..]);
  }

  lemma CivicIsLowerAlpha()
    ensures forall c :: c in "civiccar" ==> IsLowerAlpha(c)
    ensures forall c :: c in "Car" ==> !IsSpace(c)
  {
    forall c | c in "civiccar"
      ensures IsLowerAlpha(c)
    {
      var i :| 0 <= i < 8 && "civiccar"[i] == c;
      assert i in {0, 1, 2, 3, 4, 5, 6, 7};
    }
  }

  /** The keys a label line registers with its model name lower-cased, as the
      lookup lower-cases the names it is asked for. */
  function AddLineLowered(t: Table, line: string): Table {
    var (model, vehicleType) := ParseLine(line);
    InsertAll(t, Keys(Lower(model)), vehicleType)
  }

  /** With keys lower-cased, the display name of a label line's model resolves to
      the line's class whatever its letter case, when the table did not hold the
      name before. */
  lemma {:induction false} LoweredKeyResolves(t: Table, model: string, cls: string)
    requires forall c :: c in model ==> IsAlpha(c)
    requires forall c :: c in cls ==> !IsSpace(c)
    requires Lower(model) !in t
    ensures LookupType(AddLineLowered(t, model + [','] + cls), model) == (true, cls)
  {
    var low := Lower(model);
    var t2 := InsertAll(t, Keys(low), cls);
    LoweredLineInserts(t, model, cls);
    InsertAllHead(t, Keys(low), cls);
    NormalizeLetters(model);
    assert low in t2 && t2[low] == cls;
  }

  /** Adding a well-formed line, lower-cased, inserts the keys of its lower-cased
      model name under its class. */
  lemma LoweredLineInserts(t: Table, model: string, cls: string)
    requires forall c :: c in model ==> IsAlpha(c)
    requires forall c :: c in cls ==> !IsSpace(c)
    ensures AddLineLowered(t, model + [','] + cls) == InsertAll(t, Keys(Lower(model)), cls)
  {
    LineParses(model, cls);
  }

  /** The first key of a batch that is new to the table is registered with the
      batch's class. */
  lemma InsertAllHead(t: Table, ks: seq<string>, v: string)
    requires ks != [] && ks[0] !in t
    ensures ks[0] in InsertAll(t, ks, v) && InsertAll(t, ks, v)[ks[0]] == v
  {
    InsertAllSpec(t, ks, v);
  }

  /** A name made of letters normalises to the name lower-cased. */
  lemma {:induction false} NormalizeLetters(model: string)
    requires forall c :: c in model ==> IsAlpha(c)
    ensures Normalize(model) == Lower(model)
  {
    var low := Lower(model);
    forall c | c in low
      ensures IsAlpha(c)
    {
      var i :| 0 <= i < |low| && low[i] == c;
      assert ToLower(model[i]) == c;
    }
    LettersKept(low);
  }

  /** The model name and class of each line. */
  function Entries(lines: seq<string>): (r: seq<(string, string)>)
    ensures |r| == |lines|
    ensures forall i :: 0 <= i < |lines| ==> r[i] == ParseLine(lines[i])
  {
    seq(|lines|, i requires 0 <= i < |lines| => ParseLine(lines[i]))
  }

  /** Every entry's model name, the first entry naming it winning. */
  function AddModelNames(t: Table, es: seq<(string, string)>): Table
    decreases |es|
  {
    if es == [] then t else AddModelNames(InsertFirst(t, es[0].0, es[0].1), es[1..])
  }

  /** Every entry's truncations of its model name, where no entry exists. */
  function AddTruncations(t: Table, es: seq<(string, string)>): Table
    decreases |es|
  {
    if es == [] then t else AddTruncations(InsertAll(t, Keys(es[0].0)[1..], es[0].1), es[1..])
  }

  /** The table as evidently intended: the truncations only fill in names that no
      line registers as its own model name. */
  function IntendedTable(lines: seq<string>): Table {
    var es := Entries(lines);
    AddTruncations(AddModelNames(map[], es), es)
  }

  /** In the intended table a line's model name keeps the line's class unless an
      earlier line names the same model, however the earlier names truncate. */
  lemma {:induction false} ModelNameWins(lines: seq<string>, i: nat)
    requires i < |lines|
    requires forall j :: 0 <= j < i ==> ParseLine(lines[j]).0 != ParseLine(lines[i]).0
    ensures var p := ParseLine(lines[i]);
      p.0 in IntendedTable(lines) && IntendedTable(lines)[p.0] == p.1
  {
    var es := Entries(lines);
    ModelNamesKeep(map[], es, i);
    TruncationsKeep(AddModelNames(map[], es), es, es[i].0);
  }

  /** Entry i's model name, absent from t and named by no earlier entry, gets entry
      i's class. */
  lemma {:induction false} ModelNamesKeep(t: Table, es: seq<(string, string)>, i: nat)
    requires i < |es|
    requires forall j :: 0 <= j < i ==> es[j].0 != es[i].0
    requires es[i].0 !in t
    ensures es[i].0 in AddModelNames(t, es) && AddModelNames(t, es)[es[i].0] == es[i].1
    decreases |es|
  {
    var t1 := InsertFirst(t, es[0].0, es[0].1);
    InsertFirstKeeps(t, es[0].0, es[0].1);
    if i == 0 {
      ModelNamesKeepEarlier(t1, es[1..], es[0].0);
    } else {
      assert es[1..][i - 1] == es[i];
      ModelNamesKeep(t1, es[1..], i - 1);
    }
  }

  lemma {:induction false} ModelNamesKeepEarlier(t: Table, es: seq<(string, string)>, k: string)
    requires k in t
    ensures k in AddModelNames(t, es) && AddModelNames(t, es)[k] == t[k]
    decreases |es|
  {
    if es != [] {
      InsertFirstKeeps(t, es[0].0, es[0].1);
      ModelNamesKeepEarlier(InsertFirst(t, es[0].0, es[0].1), es[1..], k);
    }
  }

  lemma InsertFirstKeeps(t: Table, k: string, v: string)
    ensures k in InsertFirst(t, k, v)
    ensures k !in t ==> InsertFirst(t, k, v)[k] == v
    ensures forall j :: j in t ==> j in InsertFirst(t, k, v) && InsertFirst(t, k, v)[j] == t[j]
  {
  }

  lemma {:induction false} TruncationsKeep(t: Table, es: seq<(string, string)>, k: string)
    requires k in t
    ensures k in AddTruncations(t, es) && AddTruncations(t, es)[k] == t[k]
    decreases |es|
  {
    if es != [] {
      InsertAllSpec(t, Keys(es[0].0)[1..], es[0].1);
      TruncationsKeep(InsertAll(t, Keys(es[0].0)[1..], es[0].1), es[1..], k);
    }
  }

  /** The line "model,class" inserts the model name's keys with the class. */
  lemma AddLineIs(t: Table, model: string, cls: string)
    requires forall c :: c in model ==> IsLowerAlpha(c)
    requires forall c :: c in cls ==> !IsSpace(c)
    ensures AddLine(t, model + [','] + cls) == InsertAll(t, Keys(model), cls)
  {
    LineParses(model, cls);
  }

  /** Looking up a name already in normal form looks up that name itself. */
  lemma LookupKey(t: Table, key: string)
    requires Normalize(key) == key
    ensures LookupType(t, key) == if key in t then (true, t[key]) else (false, UnknownType)
  {
  }

  lemma {:induction false} PrefixLower(model: string, n: nat)
    requires forall c :: c in model ==> IsLowerAlpha(c)
    requires n <= |model|
    ensures Normalize(model[..n]) == model[..n]
  {
    forall c | c in model[..n]
      ensures IsLowerAlpha(c)
    {
      var i :| 0 <= i < n && model[..n][i] == c;
      assert model[i] in model;
    }
    NormalizeLower(model[..n]);
  }

  /** A line "model,class" with a model of letters and a class word parses back into
      the two. */
  lemma {:induction false} LineParses(model: string, cls: string)
    requires forall c :: c in model ==> IsAlpha(c)
    requires forall c :: c in cls ==> !IsSpace(c)
    ensures ParseLine(model + [','] + cls) == (model, cls)
  {
    assert ',' !in model;
    SplitAtFirstComma(model, cls);
    LettersKept(model);
    WordKept(cls);
  }

  lemma {:induction false} SplitAtFirstComma(a: string, b: string)
    requires ',' !in a
    ensures SplitAtComma(a + [','] + b) == (a, b)
  {
    if a != [] {
      var line := a + [','] + b;
      assert line[0] == a[0] && a[0] in a;
      assert line[1..] == a[1..] + [','] + b;
      SplitAtFirstComma(a[1..], b);
      assert [a[0]] + a[1..] == a;
    } else {
      assert a + [','] + b == [','] + b;
    }
  }

  lemma {:induction false} WordKept(s: string)
    requires forall c :: c in s ==> !IsSpace(c)
    ensures FirstWord(s) == s
  {
    TakeAll(s);
  }

  lemma {:induction false} TakeAll(s: string)
    requires forall c :: c in s ==> !IsSpace(c)
    ensures TakeWord(s) == s
  {
    if s != [] {
      TakeAll(s[1..]);
    }
  }

  /** A string made of lower-case letters is its own normal form. */
  lemma {:induction false} NormalizeLower(s: string)
    requires forall c :: c in s ==> IsLowerAlpha(c)
    ensures Normalize(s) == s
  {
    forall i | 0 <= i < |s|
      ensures Lower(s)[i] == s[i]
    {
      assert s[i] in s;
    }
    assert Lower(s) == s;
    LettersKept(s);
  }

  lemma {:induction false} LettersKept(s: string)
    requires forall c :: c in s ==> IsAlpha(c)
    ensures LettersOnly(s) == s
  {
    if s != [] {
      LettersKept(s[1..]);
    }
  }
}
