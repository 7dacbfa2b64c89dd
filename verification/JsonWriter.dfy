/** The recursive writers of envelope.rs, which push text into a buffer they are
    handed: `write_canonical_json`, `validate_json_limits`, `collect_json_strings`. */
module JsonWriter {
  import opened Wrappers
  import opened Text
  import opened KeyOrder
  import opened Json
  import opened EnvelopeErrors

  /** A growing `String`. */
  class StringBuffer {
    var text: string

    constructor ()
      ensures text == ""
    {
      text := "";
    }

    method Push(s: string)
      modifies this
      ensures text == old(text) + s
    {
      text := text + s;
    }
  }

  // ---- nesting -----------------------------------------------------------------

  lemma {:induction false} ItemHeightBound(items: seq<Json>, i: nat)
    requires i < |items|
    ensures 1 + Height(items[i]) <= ItemsHeight(items)
  {
    if i > 0 {
      ItemHeightBound(items[1..], i - 1);
    }
  }

  lemma {:induction false} EntryHeightBound(entries: seq<Field<Json>>, i: nat)
    requires i < |entries|
    ensures 1 + Height(entries[i].value) <= EntriesHeight(entries)
  {
    if i > 0 {
      EntryHeightBound(entries[1..], i - 1);
    }
  }

  /** The height that the first `i` items need. */
  function ItemsHeightTo(items: seq<Json>, i: nat): nat
    requires i <= |items|
  {
    ItemsHeight(items[..i])
  }

  lemma {:induction false} ItemsHeightStep(items: seq<Json>, i: nat)
    requires i < |items|
    ensures ItemsHeightTo(items, i + 1) == Max(ItemsHeightTo(items, i), 1 + Height(items[i]))
  {
    assert items[..i + 1][0] == items[0];
    if i > 0 {
      ItemsHeightStep(items[1..], i - 1);
      assert items[..i + 1][1..] == items[1..][..i] && items[..i][1..] == items[1..][..i - 1];
    }
  }

  lemma ItemsHeightEnds(items: seq<Json>)
    ensures ItemsHeightTo(items, 0) == 0 && ItemsHeightTo(items, |items|) == ItemsHeight(items)
  {
    assert items[..|items|] == items;
  }

  function EntriesHeightTo(entries: seq<Field<Json>>, i: nat): nat
    requires i <= |entries|
  {
    EntriesHeight(entries[..i])
  }

  lemma {:induction false} EntriesHeightStep(entries: seq<Field<Json>>, i: nat)
    requires i < |entries|
    ensures EntriesHeightTo(entries, i + 1) == Max(EntriesHeightTo(entries, i), 1 + Height(entries[i].value))
  {
    assert entries[..i + 1][0] == entries[0];
    if i > 0 {
      EntriesHeightStep(entries[1..], i - 1);
      assert entries[..i + 1][1..] == entries[1..][..i] && entries[..i][1..] == entries[1..][..i - 1];
    }
  }

  lemma EntriesHeightEnds(entries: seq<Field<Json>>)
    ensures EntriesHeightTo(entries, 0) == 0 && EntriesHeightTo(entries, |entries|) == EntriesHeight(entries)
  {
    assert entries[..|entries|] == entries;
  }

  /** Accepts exactly the values whose innermost element sits at depth 32 or less. */
  method ValidateJsonLimits(value: Json, depth: nat) returns (r: Outcome<EnvelopeError>)
    ensures r.Pass? <==> depth + Height(value) <= MAX_JSON_DEPTH
    ensures r.Fail? ==> r.error == LimitExceeded(JsonDepth)
    decreases value
  {
    if depth > MAX_JSON_DEPTH {
      return Fail(LimitExceeded(JsonDepth));
    }
    match value
    case Array(items) =>
      ItemsHeightEnds(items);
      for i := 0 to |items|
        invariant depth + ItemsHeightTo(items, i) <= MAX_JSON_DEPTH
      {
        r := ValidateJsonLimits(items[i], depth + 1);
        if r.Fail? {
          ItemHeightBound(items, i);
          return;
        }
        ItemsHeightStep(items, i);
      }
      r := Pass;
    case Object(entries) =>
      EntriesHeightEnds(entries);
      for i := 0 to |entries|
        invariant depth + EntriesHeightTo(entries, i) <= MAX_JSON_DEPTH
      {
        r := ValidateJsonLimits(entries[i].value, depth + 1);
        if r.Fail? {
          EntryHeightBound(entries, i);
          return;
        }
        EntriesHeightStep(entries, i);
      }
      r := Pass;
    case _ =>
      r := Pass;
  }

  // ---- canonical text ------------------------------------------------------------

  lemma JoinCommaStep(texts: seq<string>, i: nat)
    requires i < |texts|
    ensures JoinComma(texts[..i + 1]) ==
            if i == 0 then texts[0] else JoinComma(texts[..i]) + [','] + texts[i]
    decreases i
  {
    if i > 0 {
      assert texts[..i + 1][1..] == texts[1..][..i];
      JoinCommaStep(texts[1..], i - 1);
      if i > 1 {
        assert texts[..i][1..] == texts[1..][..i - 1];
      }
    }
  }

  /** An element, after a comma unless it is the first. */
  function Separated(i: nat, text: string): string {
    if i > 0 then [','] + text else text
  }

  /** The buffer after `i` elements. */
  function Written(start: string, texts: seq<string>, i: nat): string
    requires i <= |texts|
  {
    start + JoinComma(texts[..i])
  }

  lemma WrittenStep(start: string, texts: seq<string>, i: nat)
    requires i < |texts|
    ensures Written(start, texts, i + 1) == Written(start, texts, i) + Separated(i, texts[i])
  {
    JoinCommaStep(texts, i);
    if i > 0 {
      var a, t := JoinComma(texts[..i]), texts[i];
      assert start + (a + [','] + t) == start + a + ([','] + t);
    }
  }

  lemma WrittenEnds(start: string, texts: seq<string>)
    ensures Written(start, texts, 0) == start
    ensures Written(start, texts, |texts|) == start + JoinComma(texts)
  {
    assert texts[..|texts|] == texts;
  }

  function EntryText(e: Field<Json>): string {
    MemberText(Field(e.key, Print(e.value)))
  }

  function EntryTexts(entries: seq<Field<Json>>): (texts: seq<string>)
    ensures |texts| == |entries|
  {
    MemberTexts(PrintEntries(entries))
  }

  lemma WrittenEntriesStep(start: string, entries: seq<Field<Json>>, i: nat)
    requires i < |entries|
    ensures Written(start, EntryTexts(entries), i + 1) ==
            Written(start, EntryTexts(entries), i) + Separated(i, EntryText(entries[i]))
  {
    WrittenStep(start, EntryTexts(entries), i);
  }

  lemma {:induction false} InsertKeepsHeight(e: Field<Json>, entries: seq<Field<Json>>)
    ensures EntriesHeight(Insert(e, entries)) == Max(1 + Height(e.value), EntriesHeight(entries))
  {
    if entries != [] && KeyLess(entries[0].key, e.key) {
      InsertKeepsHeight(e, entries[1..]);
    }
  }

  lemma {:induction false} SortKeepsHeight(entries: seq<Field<Json>>)
    ensures EntriesHeight(SortByKey(entries)) == EntriesHeight(entries)
  {
    if entries != [] {
      SortKeepsHeight(entries[1..]);
      InsertKeepsHeight(entries[0], SortByKey(entries[1..]));
    }
  }

  /** Appends exactly the canonical text, or refuses a value that nests too deep;
      a refused value leaves text behind that the caller drops. */
  method WriteCanonicalJson(value: Json, depth: nat, output: StringBuffer) returns (r: Outcome<EnvelopeError>)
    modifies output
    ensures r.Pass? <==> depth + Height(value) <= MAX_JSON_DEPTH
    ensures r.Pass? ==> output.text == old(output.text) + Print(value)
    ensures r.Fail? ==> r.error == LimitExceeded(JsonDepth)
    decreases Height(value), 3
  {
    if depth > MAX_JSON_DEPTH {
      return Fail(LimitExceeded(JsonDepth));
    }
    match value
    case Null =>
      output.Push("null");
      r := Pass;
    case Bool(flag) =>
      output.Push(if flag then "true" else "false");
      r := Pass;
    case Number(token) =>
      output.Push(token);
      r := Pass;
    case String(text) =>
      output.Push(Quote(text));
      r := Pass;
    case Array(items) =>
      r := WriteArray(items, depth, output);
    case Object(entries) =>
      r := WriteObject(entries, depth, output);
  }

  method WriteArray(items: seq<Json>, depth: nat, output: StringBuffer) returns (r: Outcome<EnvelopeError>)
    requires depth <= MAX_JSON_DEPTH
    modifies output
    ensures r.Pass? <==> depth + ItemsHeight(items) <= MAX_JSON_DEPTH
    ensures r.Pass? ==> output.text == old(output.text) + Print(Array(items))
    ensures r.Fail? ==> r.error == LimitExceeded(JsonDepth)
    decreases ItemsHeight(items), 2
  {
    hide PrintItems, JoinComma, ItemsHeight;
    output.Push(['[']);
    r := WriteItems(items, depth, output);
    if r.Pass? {
      output.Push([']']);
    }
  }

  method WriteItems(items: seq<Json>, depth: nat, output: StringBuffer) returns (r: Outcome<EnvelopeError>)
    requires depth <= MAX_JSON_DEPTH
    modifies output
    ensures r.Pass? <==> depth + ItemsHeight(items) <= MAX_JSON_DEPTH
    ensures r.Pass? ==> output.text == old(output.text) + JoinComma(PrintItems(items))
    ensures r.Fail? ==> r.error == LimitExceeded(JsonDepth)
    decreases ItemsHeight(items), 1
  {
    ghost var start, texts := output.text, PrintItems(items);
    WrittenEnds(start, texts);
    ItemsHeightEnds(items);
    hide ItemsHeight, ItemsHeightTo, Height, JoinComma, PrintItems, Written, Separated;
    for i := 0 to |items|
      invariant depth + ItemsHeightTo(items, i) <= MAX_JSON_DEPTH
      invariant output.text == Written(start, texts, i)
    {
      WrittenStep(start, texts, i);
      ItemHeightBound(items, i);
      r := WriteItem(items[i], i, depth, output);
      if r.Fail? {
        return;
      }
      ItemsHeightStep(items, i);
    }
    r := Pass;
  }

  lemma SeparatedMeans(index: nat, text: string)
    ensures Separated(index, text) == if index > 0 then [','] + text else text
  {
  }

  lemma PushedInTwo(a: string, b: string, c: string)
    ensures (a + b) + c == a + (b + c)
  {
  }

  method WriteItem(item: Json, index: nat, depth: nat, output: StringBuffer) returns (r: Outcome<EnvelopeError>)
    modifies output
    ensures r.Pass? <==> depth + 1 + Height(item) <= MAX_JSON_DEPTH
    ensures r.Pass? ==> output.text == old(output.text) + Separated(index, Print(item))
    ensures r.Fail? ==> r.error == LimitExceeded(JsonDepth)
    decreases 1 + Height(item), 0
  {
    hide Print, Height, Separated;
    SeparatedMeans(index, Print(item));
    ghost var before := output.text;
    if index > 0 {
      output.Push([',']);
    }
    PushedInTwo(before, [','], Print(item));
    r := WriteCanonicalJson(item, depth + 1, output);
  }

  lemma PrintObject(entries: seq<Field<Json>>)
    ensures Print(Object(entries)) == ['{'] + JoinComma(EntryTexts(SortByKey(entries))) + ['}']
  {
    SortCommutesWithPrint(entries);
  }

  method WriteObject(entries: seq<Field<Json>>, depth: nat, output: StringBuffer) returns (r: Outcome<EnvelopeError>)
    requires depth <= MAX_JSON_DEPTH
    modifies output
    ensures r.Pass? <==> depth + EntriesHeight(entries) <= MAX_JSON_DEPTH
    ensures r.Pass? ==> output.text == old(output.text) + Print(Object(entries))
    ensures r.Fail? ==> r.error == LimitExceeded(JsonDepth)
    decreases EntriesHeight(entries), 2
  {
    hide Print, EntryTexts, JoinComma, SortByKey, EntriesHeight;
    output.Push(['{']);
    var sorted := SortByKey(entries);
    SortKeepsHeight(entries);
    PrintObject(entries);
    r := WriteMembers(sorted, depth, output);
    if r.Pass? {
      output.Push(['}']);
    }
  }

  /** The loop over the sorted entries. */
  method WriteMembers(sorted: seq<Field<Json>>, depth: nat, output: StringBuffer) returns (r: Outcome<EnvelopeError>)
    requires depth <= MAX_JSON_DEPTH
    modifies output
    ensures r.Pass? <==> depth + EntriesHeight(sorted) <= MAX_JSON_DEPTH
    ensures r.Pass? ==> output.text == old(output.text) + JoinComma(EntryTexts(sorted))
    ensures r.Fail? ==> r.error == LimitExceeded(JsonDepth)
    decreases EntriesHeight(sorted), 1
  {
    hide EntriesHeight, EntriesHeightTo, Height, EntryText, JoinComma, EntryTexts, Written, Separated;
    ghost var start := output.text;
    WrittenEnds(start, EntryTexts(sorted));
    EntriesHeightEnds(sorted);
    for i := 0 to |sorted|
      invariant depth + EntriesHeightTo(sorted, i) <= MAX_JSON_DEPTH
      invariant output.text == Written(start, EntryTexts(sorted), i)
    {
      WrittenEntriesStep(start, sorted, i);
      EntryHeightBound(sorted, i);
      r := WriteMember(sorted[i], i, depth, output);
      if r.Fail? {
        return;
      }
      EntriesHeightStep(sorted, i);
    }
    r := Pass;
  }

  method WriteMember(entry: Field<Json>, index: nat, depth: nat, output: StringBuffer)
      returns (r: Outcome<EnvelopeError>)
    modifies output
    ensures r.Pass? <==> depth + 1 + Height(entry.value) <= MAX_JSON_DEPTH
    ensures r.Pass? ==> output.text == old(output.text) + Separated(index, EntryText(entry))
    ensures r.Fail? ==> r.error == LimitExceeded(JsonDepth)
    decreases 1 + Height(entry.value), 0
  {
    hide Print, Quote, Height;
    ghost var start := output.text;
    if index > 0 {
      output.Push([',']);
    }
    output.Push(Quote(entry.key));
    output.Push([':']);
    r := WriteCanonicalJson(entry.value, depth + 1, output);
    ghost var key, value := Quote(entry.key), Print(entry.value);
    assert index > 0 ==> start + [','] + key + [':'] + value == start + ([','] + (key + [':'] + value));
    assert start + key + [':'] + value == start + (key + [':'] + value);
  }

  /** `canonical_json` as a value. */
  function CanonicalJson(value: Json): Result<string, EnvelopeError> {
    if Height(value) <= MAX_JSON_DEPTH then Ok(Print(value)) else Err(LimitExceeded(JsonDepth))
  }

  method WriteDocument(value: Json) returns (r: Result<string, EnvelopeError>)
    ensures r == CanonicalJson(value)
  {
    var output := new StringBuffer();
    var written := WriteCanonicalJson(value, 0, output);
    match written
    case Pass =>
      assert output.text == [] + Print(value) == Print(value);
      r := Ok(output.text);
    case Fail(e) => r := Err(e);
  }

  // ---- searchable text -------------------------------------------------------------

  /** Every key and every string leaf, at any depth, in the order visited. */
  function Leaves(value: Json): seq<string>
    decreases value, 1
  {
    match value
    case String(text) => [text]
    case Array(items) => ItemLeaves(items)
    case Object(entries) => EntryLeaves(entries)
    case _ => []
  }

  function ItemLeaves(items: seq<Json>): seq<string>
    decreases items, 0
  {
    if items == [] then [] else Leaves(items[0]) + ItemLeaves(items[1..])
  }

  function EntryLeaves(entries: seq<Field<Json>>): seq<string>
    decreases entries, 0
  {
    if entries == [] then [] else
      [entries[0].key] + Leaves(entries[0].value) + EntryLeaves(entries[1..])
  }

  /** A newline before every lowercased leaf. */
  function Flatten(lower: string -> string, leaves: seq<string>): string {
    if leaves == [] then "" else ['\n'] + lower(leaves[0]) + Flatten(lower, leaves[1..])
  }

  lemma {:induction false} FlattenAppend(lower: string -> string, a: seq<string>, b: seq<string>)
    ensures Flatten(lower, a + b) == Flatten(lower, a) + Flatten(lower, b)
  {
    if a == [] {
      assert a + b == b;
    } else {
      assert (a + b)[1..] == a[1..] + b;
      FlattenAppend(lower, a[1..], b);
    }
  }

  lemma {:induction false} ItemLeavesStep(items: seq<Json>, i: nat)
    requires i < |items|
    ensures ItemLeaves(items[..i + 1]) == ItemLeaves(items[..i]) + Leaves(items[i])
  {
    if i == 0 {
      assert items[..1] == [items[0]];
    } else {
      ItemLeavesStep(items[1..], i - 1);
      assert items[..i + 1][1..] == items[1..][..i] && items[..i][1..] == items[1..][..i - 1];
    }
  }

  lemma {:induction false} EntryLeavesStep(entries: seq<Field<Json>>, i: nat)
    requires i < |entries|
    ensures EntryLeaves(entries[..i + 1]) == EntryLeaves(entries[..i]) + ([entries[i].key] + Leaves(entries[i].value))
  {
    if i == 0 {
      assert entries[..1] == [entries[0]];
    } else {
      EntryLeavesStep(entries[1..], i - 1);
      assert entries[..i + 1][1..] == entries[1..][..i] && entries[..i][1..] == entries[1..][..i - 1];
    }
  }

  /** Appends every key and string leaf, lowercased, each after a newline. */
  method CollectJsonStrings(lower: string -> string, value: Json, output: StringBuffer)
    modifies output
    ensures output.text == old(output.text) + Flatten(lower, Leaves(value))
    decreases value
  {
    match value
    case String(text) =>
      output.Push(['\n']);
      output.Push(lower(text));
    case Array(items) =>
      CollectItems(lower, items, output);
    case Object(entries) =>
      CollectEntries(lower, entries, output);
    case _ =>
  }

  function FlatItems(lower: string -> string, start: string, items: seq<Json>, i: nat): string
    requires i <= |items|
  {
    start + Flatten(lower, ItemLeaves(items[..i]))
  }

  lemma FlatItemsStep(lower: string -> string, start: string, items: seq<Json>, i: nat)
    requires i < |items|
    ensures FlatItems(lower, start, items, i + 1) ==
            FlatItems(lower, start, items, i) + Flatten(lower, Leaves(items[i]))
  {
    ItemLeavesStep(items, i);
    FlattenAppend(lower, ItemLeaves(items[..i]), Leaves(items[i]));
  }

  lemma FlatItemsEnds(lower: string -> string, start: string, items: seq<Json>)
    ensures FlatItems(lower, start, items, 0) == start
    ensures FlatItems(lower, start, items, |items|) == start + Flatten(lower, ItemLeaves(items))
  {
    assert items[..|items|] == items;
  }

  method CollectItems(lower: string -> string, items: seq<Json>, output: StringBuffer)
    modifies output
    ensures output.text == old(output.text) + Flatten(lower, ItemLeaves(items))
    decreases items
  {
    ghost var start := output.text;
    FlatItemsEnds(lower, start, items);
    hide Leaves, ItemLeaves, Flatten, FlatItems;
    for i := 0 to |items|
      invariant output.text == FlatItems(lower, start, items, i)
    {
      CollectJsonStrings(lower, items[i], output);
      FlatItemsStep(lower, start, items, i);
    }
  }

  function FlatEntries(lower: string -> string, start: string, entries: seq<Field<Json>>, i: nat): string
    requires i <= |entries|
  {
    start + Flatten(lower, EntryLeaves(entries[..i]))
  }

  lemma FlatEntriesStep(lower: string -> string, start: string, entries: seq<Field<Json>>, i: nat)
    requires i < |entries|
    ensures FlatEntries(lower, start, entries, i + 1) ==
            FlatEntries(lower, start, entries, i) + Flatten(lower, [entries[i].key] + Leaves(entries[i].value))
  {
    EntryLeavesStep(entries, i);
    FlattenAppend(lower, EntryLeaves(entries[..i]), [entries[i].key] + Leaves(entries[i].value));
  }

  lemma FlatEntriesEnds(lower: string -> string, start: string, entries: seq<Field<Json>>)
    ensures FlatEntries(lower, start, entries, 0) == start
    ensures FlatEntries(lower, start, entries, |entries|) == start + Flatten(lower, EntryLeaves(entries))
  {
    assert entries[..|entries|] == entries;
  }

  method CollectEntries(lower: string -> string, entries: seq<Field<Json>>, output: StringBuffer)
    modifies output
    ensures output.text == old(output.text) + Flatten(lower, EntryLeaves(entries))
    decreases entries
  {
    ghost var start := output.text;
    FlatEntriesEnds(lower, start, entries);
    hide Leaves, EntryLeaves, Flatten, FlatEntries;
    for i := 0 to |entries|
      invariant output.text == FlatEntries(lower, start, entries, i)
    {
      CollectEntry(lower, entries[i], output);
      FlatEntriesStep(lower, start, entries, i);
    }
  }

  method CollectEntry(lower: string -> string, entry: Field<Json>, output: StringBuffer)
    modifies output
    ensures output.text == old(output.text) + Flatten(lower, [entry.key] + Leaves(entry.value))
    decreases entry
  {
    output.Push(['\n']);
    output.Push(lower(entry.key));
    CollectJsonStrings(lower, entry.value, output);
    FlattenAppend(lower, [entry.key], Leaves(entry.value));
  }

  // ---- searching the flattened text ---------------------------------------------------

  lemma OccursShift(p: string, a: string, b: string, i: nat)
    requires OccursAt(p, b, i)
    ensures OccursAt(p, a + b, |a| + i)
  {
    assert (a + b)[|a| + i..|a| + i + |p|] == b[i..i + |p|];
  }

  lemma OccursPrefix(p: string, a: string, b: string, i: nat)
    requires OccursAt(p, a, i)
    ensures OccursAt(p, a + b, i)
  {
    assert (a + b)[i..i + |p|] == a[i..i + |p|];
  }

  /** A pattern without newline cannot straddle a separating newline. */
  lemma ContainsSplit(p: string, a: string, b: string)
    requires '\n' !in p
    ensures Contains(a + ['\n'] + b, p) <==> Contains(a, p) || Contains(b, p)
  {
    var t := a + ['\n'] + b;
    assert t == (a + ['\n']) + b && t == a + (['\n'] + b);
    if Contains(a, p) {
      var i :| 0 <= i <= |a| && OccursAt(p, a, i);
      OccursPrefix(p, a, ['\n'] + b, i);
    }
    if Contains(b, p) {
      var i :| 0 <= i <= |b| && OccursAt(p, b, i);
      OccursShift(p, a + ['\n'], b, i);
    }
    if Contains(t, p) {
      var i :| 0 <= i <= |t| && OccursAt(p, t, i);
      OccurrenceOnOneSide(p, a, b, i);
    }
  }

  lemma OccurrenceCovers(p: string, t: string, i: nat, m: nat)
    requires OccursAt(p, t, i) && m < |t|
    ensures i <= m < i + |p| ==> t[m] in p
  {
    assert i <= m < i + |p| ==> t[m] == t[i..i + |p|][m - i];
  }

  lemma OccurrenceOnOneSide(p: string, a: string, b: string, i: nat)
    requires '\n' !in p && OccursAt(p, a + ['\n'] + b, i)
    ensures OccursAt(p, a, i) || OccursAt(p, b, i - |a| - 1)
  {
    var t := a + ['\n'] + b;
    OccurrenceCovers(p, t, i, |a|);
    assert t[|a|] == '\n';
    if i + |p| <= |a| {
      assert t[i..i + |p|] == a[i..i + |p|];
    } else {
      assert t[i..i + |p|] == b[i - |a| - 1..i - |a| - 1 + |p|];
    }
  }

  /** Searching the flattened text is searching every lowercased leaf. */
  lemma {:induction false} FlattenedSearch(lower: string -> string, head: string, leaves: seq<string>, p: string)
    requires '\n' !in p
    ensures Contains(head + Flatten(lower, leaves), p) <==>
            Contains(head, p) || exists i | 0 <= i < |leaves| :: Contains(lower(leaves[i]), p)
    decreases leaves
  {
    if leaves == [] {
      assert head + Flatten(lower, leaves) == head;
    } else {
      var tail := lower(leaves[0]) + Flatten(lower, leaves[1..]);
      assert head + Flatten(lower, leaves) == head + ['\n'] + tail;
      ContainsSplit(p, head, tail);
      FlattenedSearch(lower, lower(leaves[0]), leaves[1..], p);
      forall i | 0 <= i < |leaves| && Contains(lower(leaves[i]), p)
        ensures Contains(lower(leaves[0]), p) || exists j | 0 <= j < |leaves[1..]| :: Contains(lower(leaves[1..][j]), p)
      {
        if i > 0 {
          assert leaves[1..][i - 1] == leaves[i];
        }
      }
    }
  }
}
