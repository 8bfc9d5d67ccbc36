/** The text under which a listing is cached: the JSON of the query, which no other query has. */
module QueryKey {
  import opened Prelude

  /** A number of a query stands as its JSON text, which determines it and holds no comma. */
  type NumberText = s: string | ',' !in s

  datatype ListQuery = ListQuery(
    status: Option<string>, creator: Option<string>, minReward: Option<NumberText>, maxReward: Option<NumberText>,
    page: NumberText, limit: NumberText, sortBy: string, sortOrder: string)

  // ----- strings -----

  function HexDigit(n: nat): char
    requires n < 16
  {
    "0123456789abcdef"[n]
  }

  /** Quotes, backslashes and control characters are escaped. */
  function EscapeChar(c: char): string {
    if c == '\"' then "\\\""
    else if c == '\\' then "\\\\"
    else if c == '\n' then "\\n"
    else if c == '\r' then "\\r"
    else if c == '\t' then "\\t"
    else if c as int == 8 then "\\b"
    else if c as int == 12 then "\\f"
    else if c as int < 32 then "\\u00" + [HexDigit(c as int / 16), HexDigit(c as int % 16)]
    else [c]
  }

  function Escape(s: string): string {
    if s == "" then "" else EscapeChar(s[0]) + Escape(s[1..])
  }

  /** The quoted text of a string, with what follows it. */
  function Quoted(s: string, rest: string): string {
    "\"" + (Escape(s) + ("\"" + rest))
  }

  lemma HexDigitsDiffer(m: nat, n: nat)
    requires m < 16 && n < 16 && HexDigit(m) == HexDigit(n)
    ensures m == n
  {
    var digits := "0123456789abcdef";
    assert forall i, j :: 0 <= i < j < 16 ==> digits[i] != digits[j];
  }

  /** An escaped character is recognised from the text that starts with it. */
  lemma {:induction false} EscapeCharDelimits(a: char, b: char, s: string, t: string)
    requires EscapeChar(a) + s == EscapeChar(b) + t
    ensures a == b && s == t
  {
    var text := EscapeChar(a) + s;
    assert text[0] == EscapeChar(a)[0] && text[0] == EscapeChar(b)[0];
    if |EscapeChar(a)| > 1 && |EscapeChar(b)| > 1 {
      assert text[1] == EscapeChar(a)[1] && text[1] == EscapeChar(b)[1];
      if |EscapeChar(a)| == 6 && |EscapeChar(b)| == 6 {
        assert text[4] == EscapeChar(a)[4] && text[4] == EscapeChar(b)[4];
        assert text[5] == EscapeChar(a)[5] && text[5] == EscapeChar(b)[5];
        HexDigitsDiffer(a as int / 16, b as int / 16);
        HexDigitsDiffer(a as int % 16, b as int % 16);
      }
    }
    assert a == b;
    assert s == text[|EscapeChar(a)|..] && t == text[|EscapeChar(b)|..];
  }

  /** A string's text starts with its first character's, never with the closing quote. */
  lemma {:induction false} EscapeSplits(a: string, s: string)
    requires a != ""
    ensures Escape(a) + ("\"" + s) == EscapeChar(a[0]) + (Escape(a[1..]) + ("\"" + s))
    ensures (Escape(a) + ("\"" + s))[0] != '\"'
  {
    assert EscapeChar(a[0])[0] != '\"';
  }

  /** The closing quote of a string is found, and the string read back, whatever follows. */
  lemma {:induction false} EscapeDelimits(a: string, b: string, s: string, t: string)
    requires Escape(a) + ("\"" + s) == Escape(b) + ("\"" + t)
    ensures a == b && s == t
    decreases |a|
  {
    if a != "" { EscapeSplits(a, s); }
    if b != "" { EscapeSplits(b, t); }
    if a == "" {
      assert (Escape(a) + ("\"" + s))[0] == '\"';
      assert b == "" && Escape(a) + ("\"" + s) == "\"" + s && Escape(b) + ("\"" + t) == "\"" + t;
      Strip("\"", s, t);
    } else {
      var restA, restB := Escape(a[1..]) + ("\"" + s), Escape(b[1..]) + ("\"" + t);
      EscapeCharDelimits(a[0], b[0], restA, restB);
      EscapeDelimits(a[1..], b[1..], s, t);
      assert a == [a[0]] + a[1..] && b == [b[0]] + b[1..];
    }
  }

  lemma {:induction false} Strip(name: string, s: string, t: string)
    requires name + s == name + t
    ensures s == t
  {
    assert s == (name + s)[|name|..] && t == (name + t)[|name|..];
  }

  /** A quoted string and what follows it are read back. */
  lemma {:induction false} QuotedDelimits(a: string, b: string, s: string, t: string)
    requires Quoted(a, s) == Quoted(b, t)
    ensures a == b && s == t
  {
    Strip("\"", Escape(a) + ("\"" + s), Escape(b) + ("\"" + t));
    EscapeDelimits(a, b, s, t);
  }

  lemma {:induction false} FirstComma(a: NumberText, s: string)
    ensures (a + ("," + s))[|a|] == ','
    ensures forall i :: 0 <= i < |a| ==> (a + ("," + s))[i] != ','
  {
    forall i | 0 <= i < |a| ensures a[i] != ',' { assert a[i] in a; }
  }

  lemma {:induction false} NumberDelimits(a: NumberText, b: NumberText, s: string, t: string)
    requires a + ("," + s) == b + ("," + t)
    ensures a == b && s == t
  {
    FirstComma(a, s);
    FirstComma(b, t);
    var text := a + ("," + s);
    assert |a| == |b|;
    assert a == text[..|a|] && b == text[..|b|];
    Strip(a, "," + s, "," + t);
    Strip(",", s, t);
  }

  // ----- the object: each field before the text of the rest, an absent one leaving no trace -----

  function TextField(name: string, value: Option<string>, rest: string): string {
    if value.None? then rest else name + Quoted(value.value, "," + rest)
  }

  function NumberField(name: string, value: Option<NumberText>, rest: string): string {
    if value.None? then rest else name + (value.value + ("," + rest))
  }

  function FromSortOrder(q: ListQuery): string {
    ",\"sortOrder\":" + Quoted(q.sortOrder, "}")
  }

  function FromSortBy(q: ListQuery): string {
    "\"sortBy\":" + Quoted(q.sortBy, FromSortOrder(q))
  }

  function FromLimit(q: ListQuery): string {
    NumberField("\"limit\":", Some(q.limit), FromSortBy(q))
  }

  function FromPage(q: ListQuery): string {
    NumberField("\"page\":", Some(q.page), FromLimit(q))
  }

  function FromMaxReward(q: ListQuery): string {
    NumberField("\"maxReward\":", q.maxReward, FromPage(q))
  }

  function FromMinReward(q: ListQuery): string {
    NumberField("\"minReward\":", q.minReward, FromMaxReward(q))
  }

  function FromCreator(q: ListQuery): string {
    TextField("\"creatorAddress\":", q.creator, FromMinReward(q))
  }

  function FromStatus(q: ListQuery): string {
    TextField("\"status\":", q.status, FromCreator(q))
  }

  function Json(q: ListQuery): string {
    "{" + FromStatus(q)
  }

  // ----- reading the fields back -----

  /** Where the rest does not start like the field, its presence and value are read back. */
  lemma {:induction false} TextFieldDelimits(name: string, a: Option<string>, b: Option<string>, s: string, t: string)
    requires TextField(name, a, s) == TextField(name, b, t)
    requires !(name <= s) && !(name <= t)
    ensures a == b && s == t
  {
    if a.Some? && b.Some? {
      Strip(name, Quoted(a.value, "," + s), Quoted(b.value, "," + t));
      QuotedDelimits(a.value, b.value, "," + s, "," + t);
      Strip(",", s, t);
    }
  }

  lemma {:induction false} NumberFieldDelimits(name: string, a: Option<NumberText>, b: Option<NumberText>,
      s: string, t: string)
    requires NumberField(name, a, s) == NumberField(name, b, t)
    requires (a.None? || b.None?) ==> !(name <= s) && !(name <= t)
    ensures a == b && s == t
  {
    if a.Some? && b.Some? {
      Strip(name, a.value + ("," + s), b.value + ("," + t));
      NumberDelimits(a.value, b.value, s, t);
    }
  }

  /** A field's text starts with its name; an absent field's is what follows. */
  lemma {:induction false} FieldStarts(name: string, number: Option<NumberText>, text: Option<string>, rest: string)
    requires |name| > 2
    ensures |rest| > 2 ==> |NumberField(name, number, rest)| > 2 && |TextField(name, text, rest)| > 2
    ensures number.Some? ==> |NumberField(name, number, rest)| > 2 && NumberField(name, number, rest)[..3] == name[..3]
    ensures text.Some? ==> |TextField(name, text, rest)| > 2 && TextField(name, text, rest)[..3] == name[..3]
  {
  }

  /** The second and third letters tell which field comes first. */
  lemma PageStarts(q: ListQuery)
    ensures |FromPage(q)| > 2 && FromPage(q)[1] == 'p'
    ensures |FromMaxReward(q)| > 2 && (FromMaxReward(q)[1] == 'p' || FromMaxReward(q)[1] == 'm')
    ensures FromMaxReward(q)[2] == 'a'
  {
    FieldStarts("\"page\":", Some(q.page), None, FromLimit(q));
    assert FromPage(q)[1] == FromPage(q)[..3][1] && FromPage(q)[2] == FromPage(q)[..3][2];
    FieldStarts("\"maxReward\":", q.maxReward, None, FromPage(q));
    if q.maxReward.Some? {
      assert FromMaxReward(q)[1] == FromMaxReward(q)[..3][1] && FromMaxReward(q)[2] == FromMaxReward(q)[..3][2];
    }
  }

  lemma CreatorStarts(q: ListQuery)
    ensures |FromMinReward(q)| > 2 && (FromMinReward(q)[1] == 'p' || FromMinReward(q)[1] == 'm')
    ensures |FromCreator(q)| > 2 && FromCreator(q)[1] != 's'
  {
    PageStarts(q);
    FieldStarts("\"minReward\":", q.minReward, None, FromMaxReward(q));
    if q.minReward.Some? { assert FromMinReward(q)[1] == FromMinReward(q)[..3][1]; }
    FieldStarts("\"creatorAddress\":", None, q.creator, FromMinReward(q));
    if q.creator.Some? { assert FromCreator(q)[1] == FromCreator(q)[..3][1]; }
  }

  /** So no field's rest starts like the field. */
  lemma FieldsApart(q: ListQuery)
    ensures !("\"status\":" <= FromCreator(q))
    ensures !("\"creatorAddress\":" <= FromMinReward(q))
    ensures !("\"minReward\":" <= FromMaxReward(q))
    ensures !("\"maxReward\":" <= FromPage(q))
  {
    PageStarts(q);
    CreatorStarts(q);
    assert "\"status\":"[1] == 's' && "\"creatorAddress\":"[1] == 'c';
    assert "\"minReward\":"[2] == 'i' && "\"maxReward\":"[1] == 'm';
  }

  lemma PageInjective(a: ListQuery, b: ListQuery)
    requires FromPage(a) == FromPage(b)
    ensures a.page == b.page && a.limit == b.limit && a.sortBy == b.sortBy && a.sortOrder == b.sortOrder
  {
    NumberFieldDelimits("\"page\":", Some(a.page), Some(b.page), FromLimit(a), FromLimit(b));
    NumberFieldDelimits("\"limit\":", Some(a.limit), Some(b.limit), FromSortBy(a), FromSortBy(b));
    Strip("\"sortBy\":", Quoted(a.sortBy, FromSortOrder(a)), Quoted(b.sortBy, FromSortOrder(b)));
    QuotedDelimits(a.sortBy, b.sortBy, FromSortOrder(a), FromSortOrder(b));
    Strip(",\"sortOrder\":", Quoted(a.sortOrder, "}"), Quoted(b.sortOrder, "}"));
    QuotedDelimits(a.sortOrder, b.sortOrder, "}", "}");
  }

  lemma BoundsInjective(a: ListQuery, b: ListQuery)
    requires FromMinReward(a) == FromMinReward(b)
    ensures a.minReward == b.minReward && a.maxReward == b.maxReward && FromPage(a) == FromPage(b)
  {
    FieldsApart(a);
    FieldsApart(b);
    NumberFieldDelimits("\"minReward\":", a.minReward, b.minReward, FromMaxReward(a), FromMaxReward(b));
    NumberFieldDelimits("\"maxReward\":", a.maxReward, b.maxReward, FromPage(a), FromPage(b));
  }

  /** Different queries have different texts. */
  lemma JsonInjective(a: ListQuery, b: ListQuery)
    ensures Json(a) == Json(b) <==> a == b
  {
    if Json(a) == Json(b) {
      FieldsApart(a);
      FieldsApart(b);
      Strip("{", FromStatus(a), FromStatus(b));
      TextFieldDelimits("\"status\":", a.status, b.status, FromCreator(a), FromCreator(b));
      TextFieldDelimits("\"creatorAddress\":", a.creator, b.creator, FromMinReward(a), FromMinReward(b));
      BoundsInjective(a, b);
      PageInjective(a, b);
    }
  }
}
