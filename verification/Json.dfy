/** Canonical JSON: the values, the printed text and the key-sorted normal form
    (`canonical_json` in envelope.rs). */
module Json {
  import opened Text
  import opened KeyOrder

  /** `serde_json::Value`. A number is kept as the text it prints as; an object
      is a list of entries. */
  datatype Json =
    | Null
    | Bool(flag: bool)
    | Number(token: string)
    | String(text: string)
    | Array(items: seq<Json>)
    | Object(entries: seq<Field<Json>>)

  const MAX_JSON_DEPTH := 32

  // ---- well-formed values --------------------------------------------------

  predicate IsNumberChar(c: char) {
    IsDigit(c) || c in "+-.eE"
  }

  /** What a number prints as: a non-empty run of number characters that starts
      with a digit or a minus sign. */
  predicate IsNumberToken(s: string) {
    && s != []
    && (IsDigit(s[0]) || s[0] == '-')
    && forall c | c in s :: IsNumberChar(c)
  }

  /** Number tokens are numerals, at every level. */
  predicate NumbersOk(v: Json) {
    match v
    case Number(t) => IsNumberToken(t)
    case Array(items) => forall x | x in items :: NumbersOk(x)
    case Object(entries) => forall e | e in entries :: NumbersOk(e.value)
    case _ => true
  }

  /** Object keys are distinct, at every level. */
  predicate KeysOk(v: Json) {
    match v
    case Array(items) => forall x | x in items :: KeysOk(x)
    case Object(entries) => DistinctKeys(entries) && forall e | e in entries :: KeysOk(e.value)
    case _ => true
  }

  // ---- nesting -------------------------------------------------------------

  function Max(a: nat, b: nat): nat {
    if a < b then b else a
  }

  /** How many arrays and objects enclose the innermost value. */
  function Height(v: Json): nat
    decreases v, 1
  {
    match v
    case Array(items) => ItemsHeight(items)
    case Object(entries) => EntriesHeight(entries)
    case _ => 0
  }

  function ItemsHeight(items: seq<Json>): nat
    decreases items, 0
  {
    if items == [] then 0 else Max(1 + Height(items[0]), ItemsHeight(items[1..]))
  }

  function EntriesHeight(entries: seq<Field<Json>>): nat
    decreases entries, 0
  {
    if entries == [] then 0 else Max(1 + Height(entries[0].value), EntriesHeight(entries[1..]))
  }

  // ---- strings -------------------------------------------------------------

  /** The escapes `serde_json` writes: the two mandatory ones, the five short
      ones, and `\u00XX` for the other control characters below 0x20. */
  function EscapeChar(c: char): (s: string)
    ensures |s| > 0
  {
    var n := c as int;
    if c == '"' then ['\\', '"']
    else if c == '\\' then ['\\', '\\']
    else if n == 0x08 then ['\\', 'b']
    else if n == 0x09 then ['\\', 't']
    else if n == 0x0A then ['\\', 'n']
    else if n == 0x0C then ['\\', 'f']
    else if n == 0x0D then ['\\', 'r']
    else if n < 0x20 then ['\\', 'u', '0', '0', HexDigit(n / 16), HexDigit(n % 16)]
    else [c]
  }

  function Escape(s: string): string {
    if s == [] then [] else EscapeChar(s[0]) + Escape(s[1..])
  }

  function Quote(s: string): string {
    ['"'] + Escape(s) + ['"']
  }

  // ---- the printed text ----------------------------------------------------

  function MemberText(m: Field<string>): string {
    Quote(m.key) + [':'] + m.value
  }

  function MemberTexts(ms: seq<Field<string>>): (texts: seq<string>)
    ensures |texts| == |ms|
    ensures forall i | 0 <= i < |ms| :: texts[i] == MemberText(ms[i])
  {
    seq(|ms|, i requires 0 <= i < |ms| => MemberText(ms[i]))
  }

  /** The canonical text, whatever the depth. */
  function Print(v: Json): string
    decreases v, 1
  {
    match v
    case Null => "null"
    case Bool(b) => if b then "true" else "false"
    case Number(t) => t
    case String(s) => Quote(s)
    case Array(items) => ['['] + JoinComma(PrintItems(items)) + [']']
    case Object(entries) => ['{'] + JoinComma(MemberTexts(SortByKey(PrintEntries(entries)))) + ['}']
  }

  function PrintItems(items: seq<Json>): (texts: seq<string>)
    ensures |texts| == |items|
    ensures forall i | 0 <= i < |items| :: texts[i] == Print(items[i])
    decreases items, 0
  {
    if items == [] then [] else [Print(items[0])] + PrintItems(items[1..])
  }

  function PrintEntries(entries: seq<Field<Json>>): (ms: seq<Field<string>>)
    ensures |ms| == |entries|
    ensures forall i | 0 <= i < |entries| :: ms[i] == Field(entries[i].key, Print(entries[i].value))
    decreases entries, 0
  {
    if entries == [] then [] else
      [Field(entries[0].key, Print(entries[0].value))] + PrintEntries(entries[1..])
  }

  // ---- the normal form -----------------------------------------------------

  /** The value with every object sorted by key. */
  function Normal(v: Json): Json
    decreases v, 1
  {
    match v
    case Array(items) => Array(NormalItems(items))
    case Object(entries) => Object(SortByKey(NormalEntries(entries)))
    case _ => v
  }

  function NormalItems(items: seq<Json>): (r: seq<Json>)
    ensures |r| == |items|
    ensures forall i | 0 <= i < |items| :: r[i] == Normal(items[i])
    decreases items, 0
  {
    if items == [] then [] else [Normal(items[0])] + NormalItems(items[1..])
  }

  function NormalEntries(entries: seq<Field<Json>>): (r: seq<Field<Json>>)
    ensures |r| == |entries|
    ensures forall i | 0 <= i < |entries| :: r[i] == Field(entries[i].key, Normal(entries[i].value))
    decreases entries, 0
  {
    if entries == [] then [] else
      [Field(entries[0].key, Normal(entries[0].value))] + NormalEntries(entries[1..])
  }

  // ---- equality up to key order ---------------------------------------------

  /** The same value, up to reordering the keys of objects at every level: two
      objects have the same keys, with the same value under each. */
  ghost predicate SameUpToKeyOrder(v: Json, w: Json)
    decreases v
  {
    match v
    case Array(xs) =>
      w.Array? && |xs| == |w.items| && forall i | 0 <= i < |xs| :: SameUpToKeyOrder(xs[i], w.items[i])
    case Object(xs) =>
      && w.Object?
      && KeySet(xs) == KeySet(w.entries)
      && forall i, j | 0 <= i < |xs| && 0 <= j < |w.entries| ::
           xs[i].key == w.entries[j].key ==> SameUpToKeyOrder(xs[i].value, w.entries[j].value)
    case _ => v == w
  }

  lemma KeyFound<T>(es: seq<Field<T>>, key: string) returns (i: int)
    requires key in KeySet(es)
    ensures 0 <= i < |es| && es[i].key == key
  {
    i :| 0 <= i < |es| && es[i].key == key;
  }

  /** A key-sorted list determines which value every key has. */
  lemma SortedListsAgree(xs: seq<Field<Json>>, ys: seq<Field<Json>>, i: nat) returns (j: int)
    requires SortByKey(NormalEntries(xs)) == SortByKey(NormalEntries(ys)) && i < |xs|
    ensures 0 <= j < |ys| && NormalEntries(ys)[j] == NormalEntries(xs)[i]
  {
    SortKeepsMembers(NormalEntries(xs));
    SortKeepsMembers(NormalEntries(ys));
    assert NormalEntries(xs)[i] in NormalEntries(xs);
    j :| 0 <= j < |ys| && NormalEntries(ys)[j] == NormalEntries(xs)[i];
  }

  lemma SortedListsHaveSameKeys(xs: seq<Field<Json>>, ys: seq<Field<Json>>)
    requires SortByKey(NormalEntries(xs)) == SortByKey(NormalEntries(ys))
    ensures KeySet(xs) <= KeySet(ys)
  {
    forall k | k in KeySet(xs) ensures k in KeySet(ys) {
      var i := KeyFound(xs, k);
      var j := SortedListsAgree(xs, ys, i);
      assert ys[j].key == k;
    }
  }

  lemma DistinctKeysPosition<T>(es: seq<Field<T>>, i: nat, j: nat)
    requires DistinctKeys(es) && i < |es| && j < |es| && es[i].key == es[j].key
    ensures i == j
  {
  }

  /** With distinct keys, values with the same key-sorted form are equal up to key order. */
  lemma {:induction false} NormalEqualMeansSame(v: Json, w: Json)
    requires KeysOk(v) && KeysOk(w) && Normal(v) == Normal(w)
    ensures SameUpToKeyOrder(v, w)
    decreases v
  {
    match v
    case Array(xs) =>
      assert w.Array?;
      forall i | 0 <= i < |xs| ensures SameUpToKeyOrder(xs[i], w.items[i]) {
        assert xs[i] in xs && w.items[i] in w.items;
        assert NormalItems(xs)[i] == NormalItems(w.items)[i];
        NormalEqualMeansSame(xs[i], w.items[i]);
      }
    case Object(xs) =>
      assert w.Object?;
      var ys := w.entries;
      SortedListsHaveSameKeys(xs, ys);
      SortedListsHaveSameKeys(ys, xs);
      forall i, j | 0 <= i < |xs| && 0 <= j < |ys|
        ensures xs[i].key == ys[j].key ==> SameUpToKeyOrder(xs[i].value, ys[j].value)
      {
        if xs[i].key == ys[j].key {
          var k := SortedListsAgree(xs, ys, i);
          DistinctKeysPosition(ys, j, k);
          assert xs[i] in xs && ys[j] in ys;
          NormalEqualMeansSame(xs[i].value, ys[j].value);
        }
      }
    case _ =>
      assert w == Normal(w);
  }

  ghost predicate Agree(xs: seq<Field<Json>>, ys: seq<Field<Json>>) {
    forall i, j | 0 <= i < |xs| && 0 <= j < |ys| :: xs[i].key == ys[j].key ==> xs[i] == ys[j]
  }

  lemma AgreeingEntriesIncluded(xs: seq<Field<Json>>, ys: seq<Field<Json>>, n: Field<Json>)
    requires KeySet(xs) <= KeySet(ys) && Agree(xs, ys) && n in xs
    ensures n in ys
  {
    assert n.key in KeySet(xs);
    var j := KeyFound(ys, n.key);
    assert ys[j] == n;
  }

  /** Two lists with distinct keys that agree as maps sort alike. */
  lemma AgreeingEntriesSortAlike(xs: seq<Field<Json>>, ys: seq<Field<Json>>)
    requires DistinctKeys(xs) && DistinctKeys(ys)
    requires KeySet(xs) == KeySet(ys) && Agree(xs, ys)
    ensures SortByKey(xs) == SortByKey(ys)
  {
    SortStrict(xs);
    SortStrict(ys);
    SortKeepsMembers(xs);
    SortKeepsMembers(ys);
    forall n | n in xs ensures n in ys {
      AgreeingEntriesIncluded(xs, ys, n);
    }
    forall n | n in ys ensures n in xs {
      AgreeingEntriesIncluded(ys, xs, n);
    }
    StrictlySortedUnique(SortByKey(xs), SortByKey(ys));
  }

  lemma NormalKeepsKeys(entries: seq<Field<Json>>)
    ensures KeySet(NormalEntries(entries)) == KeySet(entries)
    ensures DistinctKeys(entries) ==> DistinctKeys(NormalEntries(entries))
  {
    var n := NormalEntries(entries);
    forall k | k in KeySet(entries) ensures k in KeySet(n) {
      var i := KeyFound(entries, k);
      assert n[i].key == k;
    }
  }

  /** With distinct keys, values equal up to key order have the same normal form. */
  lemma {:induction false} SameMeansNormalEqual(v: Json, w: Json)
    requires KeysOk(v) && KeysOk(w) && SameUpToKeyOrder(v, w)
    ensures Normal(v) == Normal(w)
    decreases v
  {
    match v
    case Array(xs) =>
      forall i | 0 <= i < |xs| ensures NormalItems(xs)[i] == NormalItems(w.items)[i] {
        assert xs[i] in xs && w.items[i] in w.items;
        SameMeansNormalEqual(xs[i], w.items[i]);
      }
      assert NormalItems(xs) == NormalItems(w.items);
    case Object(xs) =>
      var ys := w.entries;
      forall i, j | 0 <= i < |xs| && 0 <= j < |ys|
        ensures xs[i].key == ys[j].key ==> NormalEntries(xs)[i] == NormalEntries(ys)[j]
      {
        if xs[i].key == ys[j].key {
          assert xs[i] in xs && ys[j] in ys;
          SameMeansNormalEqual(xs[i].value, ys[j].value);
        }
      }
      NormalKeepsKeys(xs);
      NormalKeepsKeys(ys);
      AgreeingEntriesSortAlike(NormalEntries(xs), NormalEntries(ys));
    case _ =>
  }

  // ---- the text depends on the normal form only ------------------------------

  /** Printing a value and printing its normal form give the same text. */
  lemma {:induction false} PrintOfNormal(v: Json)
    ensures Print(Normal(v)) == Print(v)
    decreases v
  {
    match v
    case Array(items) =>
      forall i | 0 <= i < |items| ensures PrintItems(NormalItems(items))[i] == PrintItems(items)[i] {
        PrintOfNormal(items[i]);
      }
      assert PrintItems(NormalItems(items)) == PrintItems(items);
    case Object(entries) =>
      var n := NormalEntries(entries);
      forall i | 0 <= i < |entries| ensures Print(n[i].value) == Print(entries[i].value) {
        PrintOfNormal(entries[i].value);
      }
      assert PrintEntries(n) == PrintEntries(entries);
      SortSorts(n);
      SortFixesSorted(SortByKey(n));
      SortCommutesWithPrint(n);
      SortCommutesWithPrint(SortByKey(n));
      assert SortByKey(PrintEntries(SortByKey(n))) == SortByKey(PrintEntries(n));
    case _ =>
  }

  /** Sorting entries and then printing them is printing them and then sorting. */
  lemma SortCommutesWithPrint(entries: seq<Field<Json>>)
    ensures SortByKey(PrintEntries(entries)) == PrintEntries(SortByKey(entries))
  {
    var ms := PrintEntries(entries);
    SortPointwise(entries, ms, (v: Json, t: string) => t == Print(v));
    var s := SortByKey(entries);
    assert forall i | 0 <= i < |s| :: SortByKey(ms)[i].value == Print(s[i].value);
    assert forall i | 0 <= i < |s| :: SortByKey(ms)[i] == PrintEntries(s)[i];
  }
}
