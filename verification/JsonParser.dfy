/** A parser for canonical JSON text, and the proof that printing loses nothing
    but the order of object keys. */
module JsonParser {
  import opened Wrappers
  import opened Text
  import opened KeyOrder
  import opened Json

  datatype Parsed<+T> = Parsed(value: T, rest: string)

  // ---- the parser ------------------------------------------------------------

  /** The character an escape stands for and how many characters it takes
      (section 7 of RFC 8259; escapes outside the Basic Multilingual Plane are
      never printed and are not read). */
  function ParseEscape(s: string): (r: Option<Parsed<char>>)
    requires |s| > 0 && s[0] == '\\'
    ensures r.Some? ==> |r.value.rest| < |s|
  {
    if |s| < 2 then None
    else
      match s[1]
      case '"' => Some(Parsed('"', s[2..]))
      case '\\' => Some(Parsed('\\', s[2..]))
      case '/' => Some(Parsed('/', s[2..]))
      case 'b' => Some(Parsed(0x08 as char, s[2..]))
      case 't' => Some(Parsed(0x09 as char, s[2..]))
      case 'n' => Some(Parsed(0x0A as char, s[2..]))
      case 'f' => Some(Parsed(0x0C as char, s[2..]))
      case 'r' => Some(Parsed(0x0D as char, s[2..]))
      case 'u' =>
        if |s| >= 6 && IsLowerHex(s[2]) && IsLowerHex(s[3]) && IsLowerHex(s[4]) && IsLowerHex(s[5]) then
          var n := HexValue(s[2]) * 4096 + HexValue(s[3]) * 256 + HexValue(s[4]) * 16 + HexValue(s[5]);
          if 0xD800 <= n < 0xE000 then None else Some(Parsed(n as char, s[6..]))
        else None
      case _ => None
  }

  /** The characters up to the closing quotation mark. */
  function ParseChars(s: string): (r: Option<Parsed<string>>)
    ensures r.Some? ==> |r.value.rest| < |s|
  {
    if s == [] then None
    else if s[0] == '"' then Some(Parsed([], s[1..]))
    else if s[0] == '\\' then
      match ParseEscape(s)
      case None => None
      case Some(Parsed(c, rest)) =>
        match ParseChars(rest)
        case None => None
        case Some(Parsed(t, end)) => Some(Parsed([c] + t, end))
    else
      match ParseChars(s[1..])
      case None => None
      case Some(Parsed(t, end)) => Some(Parsed([s[0]] + t, end))
  }

  function NumberSpan(s: string): (n: nat)
    ensures n <= |s|
  {
    if s == [] || !IsNumberChar(s[0]) then 0 else 1 + NumberSpan(s[1..])
  }

  function ParseWord(s: string, word: string, v: Json): (r: Option<Parsed<Json>>)
    requires |word| > 0
    ensures r.Some? ==> |r.value.rest| < |s|
  {
    if |s| >= |word| && s[..|word|] == word then Some(Parsed(v, s[|word|..])) else None
  }

  function ParseValue(s: string): (r: Option<Parsed<Json>>)
    ensures r.Some? ==> |r.value.rest| < |s|
    decreases |s|, 0
  {
    if s == [] then None
    else if s[0] == '"' then
      match ParseChars(s[1..])
      case None => None
      case Some(Parsed(t, rest)) => Some(Parsed(String(t), rest))
    else if s[0] == '[' then
      if |s| > 1 && s[1] == ']' then Some(Parsed(Array([]), s[2..]))
      else
        match ParseItems(s[1..])
        case None => None
        case Some(Parsed(items, rest)) => Some(Parsed(Array(items), rest))
    else if s[0] == '{' then
      if |s| > 1 && s[1] == '}' then Some(Parsed(Object([]), s[2..]))
      else
        match ParseMembers(s[1..])
        case None => None
        case Some(Parsed(entries, rest)) => Some(Parsed(Object(entries), rest))
    else if s[0] == 'n' then ParseWord(s, "null", Null)
    else if s[0] == 't' then ParseWord(s, "true", Bool(true))
    else if s[0] == 'f' then ParseWord(s, "false", Bool(false))
    else if IsDigit(s[0]) || s[0] == '-' then
      var n := NumberSpan(s);
      Some(Parsed(Number(s[..n]), s[n..]))
    else None
  }

  /** One or more values separated by commas, then a closing bracket. */
  function ParseItems(s: string): (r: Option<Parsed<seq<Json>>>)
    ensures r.Some? ==> |r.value.rest| < |s|
    decreases |s|, 1
  {
    match ParseValue(s)
    case None => None
    case Some(Parsed(v, rest)) =>
      if rest == [] then None
      else if rest[0] == ']' then Some(Parsed([v], rest[1..]))
      else if rest[0] == ',' then
        match ParseItems(rest[1..])
        case None => None
        case Some(Parsed(vs, end)) => Some(Parsed([v] + vs, end))
      else None
  }

  /** One or more members separated by commas, then a closing brace. */
  function ParseMembers(s: string): (r: Option<Parsed<seq<Field<Json>>>>)
    ensures r.Some? ==> |r.value.rest| < |s|
    decreases |s|, 1
  {
    if s == [] || s[0] != '"' then None
    else
      match ParseChars(s[1..])
      case None => None
      case Some(Parsed(key, colon)) =>
        if colon == [] || colon[0] != ':' then None
        else
          match ParseValue(colon[1..])
          case None => None
          case Some(Parsed(v, rest)) =>
            if rest == [] then None
            else if rest[0] == '}' then Some(Parsed([Field(key, v)], rest[1..]))
            else if rest[0] == ',' then
              match ParseMembers(rest[1..])
              case None => None
              case Some(Parsed(es, end)) => Some(Parsed([Field(key, v)] + es, end))
            else None
  }

  // ---- strings come back -------------------------------------------------------

  lemma EscapeCharComesBack(c: char, rest: string)
    ensures var s := EscapeChar(c) + rest;
            && s[0] != '"'
            && if s[0] == '\\' then ParseEscape(s) == Some(Parsed(c, rest)) else s == [c] + rest
  {
    var n := c as int;
    var s := EscapeChar(c) + rest;
    if n < 0x20 && |EscapeChar(c)| == 6 {
      HexDigitValue(n / 16);
      HexDigitValue(n % 16);
      assert s[2] == '0' && s[3] == '0' && s[4] == HexDigit(n / 16) && s[5] == HexDigit(n % 16);
      assert s[6..] == rest;
    } else if |EscapeChar(c)| == 2 {
      assert s[2..] == rest;
    }
  }

  lemma {:induction false} StringComesBack(t: string, rest: string)
    ensures ParseChars(Escape(t) + ['"'] + rest) == Some(Parsed(t, rest))
  {
    hide EscapeChar, ParseEscape;
    var s := Escape(t) + ['"'] + rest;
    if t == [] {
      assert s == ['"'] + rest;
    } else {
      var tail := Escape(t[1..]) + ['"'] + rest;
      assert s == EscapeChar(t[0]) + tail;
      EscapeCharComesBack(t[0], tail);
      StringComesBack(t[1..], rest);
      assert t == [t[0]] + t[1..];
      assert s[0] != '\\' ==> s[1..] == tail;
    }
  }

  lemma {:induction false} NumberSpanWhole(t: string, rest: string)
    requires forall c | c in t :: IsNumberChar(c)
    requires Delimited(rest)
    ensures NumberSpan(t + rest) == |t|
  {
    if t == [] {
      assert t + rest == rest;
    } else {
      assert (t + rest)[0] == t[0] && t[0] in t;
      assert (t + rest)[1..] == t[1..] + rest;
      NumberSpanWhole(t[1..], rest);
    }
  }

  // ---- values come back ----------------------------------------------------------

  /** What may follow a value: nothing that would prolong a number. */
  predicate Delimited(rest: string) {
    rest == [] || !IsNumberChar(rest[0])
  }

  /** `text` is read as `v`, and exactly `text` is consumed. */
  ghost predicate Reads(text: string, v: Json) {
    forall rest | Delimited(rest) :: ParseValue(text + rest) == Some(Parsed(v, rest))
  }

  lemma ReadsStart(text: string, v: Json)
    requires Reads(text, v)
    ensures text != [] && text[0] != ']' && text[0] != '}'
  {
    assert Delimited([]);
    assert text + [] == text;
    assert ParseValue(text) == Some(Parsed(v, []));
  }

  lemma LastItem(v: Json, s: string, rest: string)
    requires ParseValue(s) == Some(Parsed(v, [']'] + rest))
    ensures ParseItems(s) == Some(Parsed([v], rest))
  {
    assert ([']'] + rest)[1..] == rest;
  }

  lemma NextItem(v: Json, s: string, tail: string, vs: seq<Json>, rest: string)
    requires ParseValue(s) == Some(Parsed(v, [','] + tail))
    requires ParseItems(tail) == Some(Parsed(vs, rest))
    ensures ParseItems(s) == Some(Parsed([v] + vs, rest))
  {
    assert ([','] + tail)[1..] == tail;
  }

  lemma {:induction false} ItemsComeBack(texts: seq<string>, vs: seq<Json>, rest: string)
    requires |texts| == |vs| > 0
    requires forall i | 0 <= i < |vs| :: Reads(texts[i], vs[i])
    ensures ParseItems(JoinComma(texts) + [']'] + rest) == Some(Parsed(vs, rest))
  {
    hide ParseValue, ParseItems;
    var s := JoinComma(texts) + [']'] + rest;
    if |texts| == 1 {
      var after := [']'] + rest;
      assert s == texts[0] + after;
      assert Delimited(after);
      LastItem(vs[0], s, rest);
      assert vs == [vs[0]];
    } else {
      var tail := JoinComma(texts[1..]) + [']'] + rest;
      var after := [','] + tail;
      assert s == texts[0] + after;
      assert Delimited(after) && Reads(texts[0], vs[0]);
      ItemsComeBack(texts[1..], vs[1..], rest);
      NextItem(vs[0], s, tail, vs[1..], rest);
      assert vs == [vs[0]] + vs[1..];
    }
  }

  /** One member, up to the comma or brace that follows it. */
  lemma MemberComesBack(m: Field<string>, e: Field<Json>, after: string)
    requires m.key == e.key && Reads(m.value, e.value) && Delimited(after)
    ensures var s := MemberText(m) + after;
            && s != [] && s[0] == '"'
            && ParseChars(s[1..]) == Some(Parsed(e.key, [':'] + (m.value + after)))
            && ParseValue(m.value + after) == Some(Parsed(e.value, after))
  {
    hide ParseValue, ParseChars, Escape;
    var s := MemberText(m) + after;
    var colon := [':'] + (m.value + after);
    assert s == ['"'] + (Escape(m.key) + ['"'] + colon);
    StringComesBack(m.key, colon);
    assert s[1..] == Escape(m.key) + ['"'] + colon;
  }

  lemma LastMember(e: Field<Json>, s: string, text: string, rest: string)
    requires s != [] && s[0] == '"' && ParseChars(s[1..]) == Some(Parsed(e.key, [':'] + text))
    requires ParseValue(text) == Some(Parsed(e.value, ['}'] + rest))
    ensures ParseMembers(s) == Some(Parsed([e], rest))
  {
    assert ([':'] + text)[1..] == text && (['}'] + rest)[1..] == rest;
  }

  lemma NextMember(e: Field<Json>, s: string, text: string, tail: string, es: seq<Field<Json>>, rest: string)
    requires s != [] && s[0] == '"' && ParseChars(s[1..]) == Some(Parsed(e.key, [':'] + text))
    requires ParseValue(text) == Some(Parsed(e.value, [','] + tail))
    requires ParseMembers(tail) == Some(Parsed(es, rest))
    ensures ParseMembers(s) == Some(Parsed([e] + es, rest))
  {
    assert ([':'] + text)[1..] == text && ([','] + tail)[1..] == tail;
  }

  lemma {:induction false} MembersComeBack(ms: seq<Field<string>>, es: seq<Field<Json>>, rest: string)
    requires SameKeys(ms, es) && |ms| > 0
    requires forall i | 0 <= i < |ms| :: Reads(ms[i].value, es[i].value)
    ensures ParseMembers(JoinComma(MemberTexts(ms)) + ['}'] + rest) == Some(Parsed(es, rest))
  {
    hide ParseValue, ParseMembers, ParseChars, MemberText, Reads;
    var s := JoinComma(MemberTexts(ms)) + ['}'] + rest;
    if |ms| == 1 {
      var after := ['}'] + rest;
      assert s == MemberText(ms[0]) + after;
      MemberComesBack(ms[0], es[0], after);
      LastMember(es[0], s, ms[0].value + after, rest);
      assert es == [es[0]];
    } else {
      var tail := JoinComma(MemberTexts(ms[1..])) + ['}'] + rest;
      var after := [','] + tail;
      assert MemberTexts(ms)[1..] == MemberTexts(ms[1..]);
      assert s == MemberText(ms[0]) + after;
      MemberComesBack(ms[0], es[0], after);
      MembersComeBack(ms[1..], es[1..], rest);
      NextMember(es[0], s, ms[0].value + after, tail, es[1..], rest);
      assert es == [es[0]] + es[1..];
    }
  }

  lemma WordComesBack(word: string, v: Json, rest: string)
    requires |word| > 0
    ensures ParseWord(word + rest, word, v) == Some(Parsed(v, rest))
  {
  }

  lemma QuotedComesBack(t: string, rest: string)
    ensures ParseValue(Quote(t) + rest) == Some(Parsed(String(t), rest))
  {
    var s := Quote(t) + rest;
    assert s == ['"'] + (Escape(t) + ['"'] + rest);
    assert s[1..] == Escape(t) + ['"'] + rest;
    StringComesBack(t, rest);
  }

  lemma StringReads(t: string)
    ensures Reads(Quote(t), String(t))
  {
    forall rest | Delimited(rest) ensures ParseValue(Quote(t) + rest) == Some(Parsed(String(t), rest)) {
      QuotedComesBack(t, rest);
    }
  }

  lemma NumberReads(t: string)
    requires IsNumberToken(t)
    ensures Reads(t, Number(t))
  {
    forall rest | Delimited(rest) ensures ParseValue(t + rest) == Some(Parsed(Number(t), rest)) {
      NumberSpanWhole(t, rest);
      assert (t + rest)[0] == t[0];
      assert (t + rest)[..|t|] == t && (t + rest)[|t|..] == rest;
    }
  }

  lemma ArrayComesBack(texts: seq<string>, vs: seq<Json>, rest: string)
    requires |texts| == |vs|
    requires forall i | 0 <= i < |vs| :: Reads(texts[i], vs[i])
    ensures ParseValue(['['] + JoinComma(texts) + [']'] + rest) == Some(Parsed(Array(vs), rest))
  {
    hide ParseItems, ParseMembers, ParseChars, Reads;
    var inner := JoinComma(texts) + [']'] + rest;
    var s := ['['] + JoinComma(texts) + [']'] + rest;
    assert s == ['['] + inner && s[1..] == inner;
    if |vs| > 0 {
      ItemsComeBack(texts, vs, rest);
      ReadsStart(texts[0], vs[0]);
      assert inner[0] == texts[0][0];
    } else {
      assert s[2..] == rest;
    }
  }

  lemma ArrayReads(texts: seq<string>, vs: seq<Json>)
    requires |texts| == |vs|
    requires forall i | 0 <= i < |vs| :: Reads(texts[i], vs[i])
    ensures Reads(['['] + JoinComma(texts) + [']'], Array(vs))
  {
    hide ParseValue, JoinComma;
    forall rest | Delimited(rest)
      ensures ParseValue((['['] + JoinComma(texts) + [']']) + rest) == Some(Parsed(Array(vs), rest))
    {
      ArrayComesBack(texts, vs, rest);
    }
  }

  lemma ObjectComesBack(ms: seq<Field<string>>, es: seq<Field<Json>>, rest: string)
    requires SameKeys(ms, es)
    requires forall i | 0 <= i < |ms| :: Reads(ms[i].value, es[i].value)
    ensures ParseValue(['{'] + JoinComma(MemberTexts(ms)) + ['}'] + rest) == Some(Parsed(Object(es), rest))
  {
    hide ParseItems, ParseMembers, ParseChars, Reads;
    var inner := JoinComma(MemberTexts(ms)) + ['}'] + rest;
    var s := ['{'] + JoinComma(MemberTexts(ms)) + ['}'] + rest;
    assert s == ['{'] + inner && s[1..] == inner;
    if |ms| > 0 {
      MembersComeBack(ms, es, rest);
      assert inner[0] == MemberText(ms[0])[0] == '"';
    } else {
      assert s[2..] == rest;
    }
  }

  lemma ObjectReads(ms: seq<Field<string>>, es: seq<Field<Json>>)
    requires SameKeys(ms, es)
    requires forall i | 0 <= i < |ms| :: Reads(ms[i].value, es[i].value)
    ensures Reads(['{'] + JoinComma(MemberTexts(ms)) + ['}'], Object(es))
  {
    hide ParseValue, JoinComma, MemberTexts;
    forall rest | Delimited(rest)
      ensures ParseValue((['{'] + JoinComma(MemberTexts(ms)) + ['}']) + rest) == Some(Parsed(Object(es), rest))
    {
      ObjectComesBack(ms, es, rest);
    }
  }

  /** Parse after print: the key-sorted value, and nothing left over. */
  lemma {:induction false} PrintedTextReads(v: Json)
    requires NumbersOk(v)
    ensures Reads(Print(v), Normal(v))
    decreases v
  {
    match v
    case Null =>
      forall rest | Delimited(rest) ensures ParseValue(Print(v) + rest) == Some(Parsed(v, rest)) {
        WordComesBack("null", v, rest);
      }
    case Bool(b) =>
      forall rest | Delimited(rest) ensures ParseValue(Print(v) + rest) == Some(Parsed(v, rest)) {
        WordComesBack(if b then "true" else "false", v, rest);
      }
    case Number(t) => NumberReads(t);
    case String(t) => StringReads(t);
    case Array(items) =>
      forall i | 0 <= i < |items| ensures Reads(PrintItems(items)[i], NormalItems(items)[i]) {
        assert items[i] in items;
        PrintedTextReads(items[i]);
      }
      ArrayReads(PrintItems(items), NormalItems(items));
    case Object(entries) =>
      var ms, es := PrintEntries(entries), NormalEntries(entries);
      forall i | 0 <= i < |entries| ensures Reads(ms[i].value, es[i].value) {
        assert entries[i] in entries;
        PrintedTextReads(entries[i].value);
      }
      SortPointwise(ms, es, (t: string, x: Json) => Reads(t, x));
      ObjectReads(SortByKey(ms), SortByKey(es));
  }

  /** A whole text is one value. */
  function ParseDocument(s: string): Option<Json> {
    match ParseValue(s)
    case Some(Parsed(v, rest)) => if rest == [] then Some(v) else None
    case None => None
  }

  lemma ParsePrint(v: Json)
    requires NumbersOk(v)
    ensures ParseDocument(Print(v)) == Some(Normal(v))
  {
    PrintedTextReads(v);
    assert Delimited([]);
    assert Print(v) + [] == Print(v);
  }

  /** Equal texts come from values with equal normal forms, and conversely. */
  lemma PrintDeterminesNormal(v: Json, w: Json)
    requires NumbersOk(v) && NumbersOk(w)
    ensures Print(v) == Print(w) <==> Normal(v) == Normal(w)
  {
    ParsePrint(v);
    ParsePrint(w);
    PrintOfNormal(v);
    PrintOfNormal(w);
  }

  /** Canonical JSON is unambiguous: two texts are equal exactly when the values
      are equal up to the order of object keys. */
  lemma CanonicalTextUnambiguous(v: Json, w: Json)
    requires NumbersOk(v) && NumbersOk(w) && KeysOk(v) && KeysOk(w)
    ensures Print(v) == Print(w) <==> SameUpToKeyOrder(v, w)
  {
    PrintDeterminesNormal(v, w);
    if Normal(v) == Normal(w) {
      NormalEqualMeansSame(v, w);
    }
    if SameUpToKeyOrder(v, w) {
      SameMeansNormalEqual(v, w);
    }
  }
}
