/** Static translation: template literals are compiled into messages with numbered placeholders, and at
    run time the message of the current locale is interpolated. */
module StaticI18n {
  import opened Common

  // ---------------------------------------------------------------- decimal numbers

  predicate IsDigit(c: char) { '0' <= c <= '9' }

  function DigitOf(n: nat): (c: char)
    requires n < 10
    ensures IsDigit(c)
  {
    ('0' as int + n) as char
  }

  function ValueOf(c: char): nat
    requires IsDigit(c)
  {
    c as int - '0' as int
  }

  predicate AllDigits(s: string) { forall c :: c in s ==> IsDigit(c) }

  function Decimal(n: nat): (s: string)
    ensures s != "" && AllDigits(s)
  {
    if n < 10 then [DigitOf(n)] else Decimal(n / 10) + [DigitOf(n % 10)]
  }

  function ParseDecimal(s: string): nat
    requires AllDigits(s)
  {
    if s == "" then 0 else 10 * ParseDecimal(s[..|s| - 1]) + ValueOf(s[|s| - 1])
  }

  lemma {:induction false} DecimalRoundTrip(n: nat)
    ensures ParseDecimal(Decimal(n)) == n
  {
    if n < 10 {
      assert Decimal(n)[..0] == "";
    } else {
      DecimalRoundTrip(n / 10);
      assert Decimal(n)[..|Decimal(n)| - 1] == Decimal(n / 10);
    }
  }

  // ---------------------------------------------------------------- interpolation

  /** How many digits a text begins with. */
  function DigitRun(s: string): (n: nat)
    ensures n <= |s| && AllDigits(s[..n]) && (n < |s| ==> !IsDigit(s[n]))
  {
    if s == "" || !IsDigit(s[0]) then 0
    else
      var n := 1 + DigitRun(s[1..]);
      assert s[..n] == [s[0]] + s[1..][..n - 1];
      n
  }

  /** The length of the placeholder (a brace, digits, a brace) a text begins with, or 0. */
  function PlaceholderLength(s: string): (n: nat)
    ensures n <= |s|
  {
    if s == "" || s[0] != '{' then 0
    else
      var d := DigitRun(s[1..]);
      if d > 0 && 1 + d < |s| && s[1 + d] == '}' then d + 2 else 0
  }

  /** An argument; null and undefined have a word of their own in JavaScript. */
  datatype Arg = Present(text: string) | Nullish(word: string)

  function Substitute(args: seq<Arg>, index: nat): string {
    if index < |args| && args[index].Present? then args[index].text else ""
  }

  /** interpolateMessage: every placeholder, left to right, is replaced by its argument. */
  function Interpolate(s: string, args: seq<Arg>): string
    decreases |s|
  {
    if s == "" then ""
    else
      var n := PlaceholderLength(s);
      if n > 0 then Substitute(args, ParseDecimal(DigitsOf(s))) + Interpolate(s[n..], args)
      else [s[0]] + Interpolate(s[1..], args)
  }

  function DigitsOf(s: string): (d: string)
    requires PlaceholderLength(s) > 0
    ensures AllDigits(d)
  {
    s[1..][..DigitRun(s[1..])]
  }

  /** A text with a placeholder in it. */
  ghost predicate HasPlaceholder(s: string) { exists i :: 0 <= i < |s| && PlaceholderLength(s[i..]) > 0 }

  lemma {:induction false} DigitRunOf(d: string, rest: string)
    requires AllDigits(d) && (rest == "" || !IsDigit(rest[0]))
    ensures DigitRun(d + rest) == |d|
  {
    if d == "" {
      assert d + rest == rest;
    } else {
      assert (d + rest)[1..] == d[1..] + rest;
      DigitRunOf(d[1..], rest);
    }
  }

  function Placeholder(i: nat): (s: string)
    ensures |s| >= 3 && s[0] == '{'
  {
    "{" + Decimal(i) + "}"
  }

  lemma PlaceholderIsFound(i: nat, rest: string)
    ensures var s := Placeholder(i) + rest;
            PlaceholderLength(s) == |Placeholder(i)| && ParseDecimal(DigitsOf(s)) == i
            && s[|Placeholder(i)|..] == rest
  {
    var s := Placeholder(i) + rest;
    assert s[1..] == Decimal(i) + ("}" + rest);
    DigitRunOf(Decimal(i), "}" + rest);
    assert s[1..][..|Decimal(i)|] == Decimal(i);
    DecimalRoundTrip(i);
  }

  /** A placeholder does not reach into a following text that begins with a brace. */
  lemma PlaceholderStaysInside(q: string, tail: string)
    requires q != "" && tail != "" && tail[0] == '{'
    ensures PlaceholderLength(q + tail) == PlaceholderLength(q)
    ensures PlaceholderLength(q) > 0 ==> DigitsOf(q + tail) == DigitsOf(q)
  {
    if q[0] == '{' {
      var d := DigitRun(q[1..]);
      var front, back := q[1..][..d], q[1..][d..] + tail;
      assert (q + tail)[1..] == front + back;
      DigitRunOf(front, back);
      assert (q + tail)[1 + d] == back[0];
      assert (q + tail)[1..][..d] == front;
    }
  }

  /** What the first step of an interpolation yields, and how much it consumes. */
  function FirstYield(s: string, args: seq<Arg>): string
    requires s != ""
  {
    if PlaceholderLength(s) > 0 then Substitute(args, ParseDecimal(DigitsOf(s))) else [s[0]]
  }

  function FirstLength(s: string): (n: nat)
    requires s != ""
    ensures 0 < n <= |s|
  {
    if PlaceholderLength(s) > 0 then PlaceholderLength(s) else 1
  }

  lemma InterpolateFirst(s: string, args: seq<Arg>)
    requires s != ""
    ensures Interpolate(s, args) == FirstYield(s, args) + Interpolate(s[FirstLength(s)..], args)
  {
  }

  lemma FirstStaysInside(q: string, tail: string, args: seq<Arg>)
    requires q != "" && tail != "" && tail[0] == '{'
    ensures FirstYield(q + tail, args) == FirstYield(q, args) && FirstLength(q + tail) == FirstLength(q)
    ensures (q + tail)[FirstLength(q)..] == q[FirstLength(q)..] + tail
  {
    PlaceholderStaysInside(q, tail);
  }

  lemma {:induction false} InterpolateBeforeBrace(q: string, tail: string, args: seq<Arg>)
    requires tail != "" && tail[0] == '{'
    ensures Interpolate(q + tail, args) == Interpolate(q, args) + Interpolate(tail, args)
    decreases |q|
  {
    if q == "" {
      assert q + tail == tail;
    } else {
      var rest := q[FirstLength(q)..];
      InterpolateFirst(q, args);
      InterpolateFirst(q + tail, args);
      FirstStaysInside(q, tail, args);
      InterpolateBeforeBrace(rest, tail, args);
      Associative(FirstYield(q, args), Interpolate(rest, args), Interpolate(tail, args));
    }
  }

  lemma Associative(a: string, b: string, c: string)
    ensures a + (b + c) == (a + b) + c
  {
  }

  lemma InterpolatePlaceholder(i: nat, rest: string, args: seq<Arg>)
    ensures Interpolate(Placeholder(i) + rest, args) == Substitute(args, i) + Interpolate(rest, args)
  {
    PlaceholderIsFound(i, rest);
    InterpolateFirst(Placeholder(i) + rest, args);
  }

  /** Interpolation goes part by part. */
  lemma InterpolateParts(q: string, i: nat, rest: string, args: seq<Arg>)
    ensures Interpolate(q + (Placeholder(i) + rest), args)
         == Interpolate(q, args) + (Substitute(args, i) + Interpolate(rest, args))
  {
    InterpolateBeforeBrace(q, Placeholder(i) + rest, args);
    InterpolatePlaceholder(i, rest, args);
  }

  lemma {:induction false} InterpolatePlain(q: string, args: seq<Arg>)
    requires !HasPlaceholder(q)
    ensures Interpolate(q, args) == q
  {
    if q != "" {
      assert q[0..] == q;
      forall i | 0 <= i < |q[1..]| ensures PlaceholderLength(q[1..][i..]) == 0 {
        assert q[1..][i..] == q[i + 1..];
      }
      InterpolatePlain(q[1..], args);
    }
  }

  /** With blank arguments a text gets shorter exactly if it has a placeholder. */
  lemma {:induction false} BlanksShortenIff(q: string, args: seq<Arg>)
    requires forall i :: 0 <= i < |args| ==> args[i] == Present("")
    ensures |Interpolate(q, args)| <= |q|
    ensures HasPlaceholder(q) ==> |Interpolate(q, args)| < |q|
    decreases |q|
  {
    if q != "" {
      var n := PlaceholderLength(q);
      if n > 0 {
        BlanksShortenIff(q[n..], args);
      } else {
        BlanksShortenIff(q[1..], args);
        if HasPlaceholder(q) {
          var i :| 0 <= i < |q| && PlaceholderLength(q[i..]) > 0;
          assert q[0..] == q;
          assert q[1..][i - 1..] == q[i..];
          assert HasPlaceholder(q[1..]);
        }
      }
    }
  }

  // ---------------------------------------------------------------- templates

  /** A template literal: one fixed part more than it has expressions. */
  datatype Template = Template(quasis: seq<string>, expressions: nat)

  predicate ValidTemplate(t: Template) { |t.quasis| == t.expressions + 1 }

  /** The canonical message of the parts from `i` on. */
  function Canonical(t: Template, i: nat): string
    requires ValidTemplate(t) && i <= t.expressions
    decreases t.expressions - i
  {
    if i == t.expressions then t.quasis[i]
    else t.quasis[i] + (Placeholder(i) + Canonical(t, i + 1))
  }

  function WordOf(a: Arg): string {
    match a case Present(text) => text case Nullish(word) => word
  }

  /** What JavaScript makes of the template literal itself. */
  function Original(t: Template, args: seq<Arg>, i: nat): string
    requires ValidTemplate(t) && |args| == t.expressions && i <= t.expressions
    decreases t.expressions - i
  {
    if i == t.expressions then t.quasis[i]
    else t.quasis[i] + (WordOf(args[i]) + Original(t, args, i + 1))
  }

  function Joined(parts: seq<string>): string {
    if parts == [] then "" else Joined(parts[..|parts| - 1]) + parts[|parts| - 1]
  }

  /** createTemplateCanonical. */
  method CreateTemplateCanonical(t: Template) returns (canonical: string)
    requires ValidTemplate(t)
    ensures canonical == Canonical(t, 0)
  {
    canonical := "";
    for index := 0 to |t.quasis|
      invariant index < |t.quasis| ==> canonical + Canonical(t, index) == Canonical(t, 0)
      invariant index == |t.quasis| ==> canonical == Canonical(t, 0)
    {
      ghost var before := canonical;
      canonical := canonical + t.quasis[index];
      if index < t.expressions {
        assert before + (t.quasis[index] + (Placeholder(index) + Canonical(t, index + 1)))
            == (before + t.quasis[index] + Placeholder(index)) + Canonical(t, index + 1);
        canonical := canonical + ("{" + Decimal(index) + "}");
      }
    }
  }

  /** The fixed parts interpolated, with the arguments between them. */
  function Filled(t: Template, args: seq<Arg>, i: nat): string
    requires ValidTemplate(t) && i <= t.expressions
    decreases t.expressions - i
  {
    if i == t.expressions then Interpolate(t.quasis[i], args)
    else Interpolate(t.quasis[i], args) + (Substitute(args, i) + Filled(t, args, i + 1))
  }

  lemma {:induction false} InterpolateCanonical(t: Template, args: seq<Arg>, i: nat)
    requires ValidTemplate(t) && i <= t.expressions
    ensures Interpolate(Canonical(t, i), args) == Filled(t, args, i)
    decreases t.expressions - i
  {
    if i < t.expressions {
      InterpolateParts(t.quasis[i], i, Canonical(t, i + 1), args);
      InterpolateCanonical(t, args, i + 1);
    }
  }

  ghost predicate Plain(t: Template) { forall i :: 0 <= i < |t.quasis| ==> !HasPlaceholder(t.quasis[i]) }

  predicate AllPresent(args: seq<Arg>) { forall i :: 0 <= i < |args| ==> args[i].Present? }

  /** The words of null and undefined are not empty. */
  predicate ProperArgs(args: seq<Arg>) { forall i :: 0 <= i < |args| && args[i].Nullish? ==> args[i].word != "" }

  lemma {:induction false} FilledPlain(t: Template, args: seq<Arg>, i: nat)
    requires ValidTemplate(t) && |args| == t.expressions && i <= t.expressions && Plain(t) && ProperArgs(args)
    ensures (forall k :: i <= k < |args| ==> args[k].Present?) ==> Filled(t, args, i) == Original(t, args, i)
    ensures |Filled(t, args, i)| <= |Original(t, args, i)|
    ensures (exists k :: i <= k < |args| && args[k].Nullish?) ==> |Filled(t, args, i)| < |Original(t, args, i)|
    decreases t.expressions - i
  {
    InterpolatePlain(t.quasis[i], args);
    if i < t.expressions {
      FilledPlain(t, args, i + 1);
      SamePart(t, args, i);
    }
  }

  /** A plain fixed part and a present argument are filled in as they are. */
  lemma SamePart(t: Template, args: seq<Arg>, i: nat)
    requires ValidTemplate(t) && |args| == t.expressions && i < t.expressions && ProperArgs(args)
    requires Interpolate(t.quasis[i], args) == t.quasis[i]
    ensures |Filled(t, args, i)| == |t.quasis[i]| + |Substitute(args, i)| + |Filled(t, args, i + 1)|
    ensures |Original(t, args, i)| == |t.quasis[i]| + |WordOf(args[i])| + |Original(t, args, i + 1)|
    ensures args[i].Present? && Filled(t, args, i + 1) == Original(t, args, i + 1)
            ==> Filled(t, args, i) == Original(t, args, i)
  {
  }

  ghost predicate PlaceholderFrom(t: Template, i: nat) {
    exists k :: i <= k < |t.quasis| && HasPlaceholder(t.quasis[k])
  }

  lemma PartLengths(t: Template, args: seq<Arg>, i: nat)
    requires ValidTemplate(t) && |args| == t.expressions && i < t.expressions && args[i] == Present("")
    ensures |Filled(t, args, i)| == |Interpolate(t.quasis[i], args)| + |Filled(t, args, i + 1)|
    ensures |Original(t, args, i)| == |t.quasis[i]| + |Original(t, args, i + 1)|
  {
  }

  lemma {:induction false} FilledBlank(t: Template, args: seq<Arg>, i: nat)
    requires ValidTemplate(t) && |args| == t.expressions && i <= t.expressions
    requires forall k :: 0 <= k < |args| ==> args[k] == Present("")
    ensures |Filled(t, args, i)| <= |Original(t, args, i)|
    ensures PlaceholderFrom(t, i) ==> |Filled(t, args, i)| < |Original(t, args, i)|
    decreases t.expressions - i
  {
    BlanksShortenIff(t.quasis[i], args);
    if i < t.expressions {
      PartLengths(t, args, i);
      FilledBlank(t, args, i + 1);
      assert PlaceholderFrom(t, i) ==> HasPlaceholder(t.quasis[i]) || PlaceholderFrom(t, i + 1);
    }
  }

  // ---------------------------------------------------------------- the catalog and the locales

  datatype Entry = Entry(source: string, placeholders: nat)

  datatype Record = Record(id: string, source: string, placeholders: nat)

  /** Every record is in the catalog under its id with its own source, and nothing else is. */
  ghost predicate Catalogues(entries: map<string, Entry>, records: seq<Record>) {
    && (forall r :: r in records ==> r.id in entries && entries[r.id].source == r.source)
    && (forall id :: id in entries
                     ==> exists r :: r in records && r.id == id && entries[id] == Entry(r.source, r.placeholders))
  }

  ghost predicate Collide(records: seq<Record>) {
    exists a, b :: a in records && b in records && a.id == b.id && a.source != b.source
  }

  /** mergeMessageRecords, without the references: an id that two sources share is an error. */
  method MergeMessageRecords(records: seq<Record>) returns (entries: Option<map<string, Entry>>)
    ensures entries.None? <==> Collide(records)
    ensures entries.Some? ==> Catalogues(entries.value, records)
  {
    var merged: map<string, Entry> := map[];
    for i := 0 to |records|
      invariant Catalogues(merged, records[..i])
    {
      var record := records[i];
      assert records[..i + 1] == records[..i] + [record];
      if record.id !in merged {
        merged := merged[record.id := Entry(record.source, record.placeholders)];
        assert record in records[..i + 1];
      } else if merged[record.id].source != record.source {
        ghost var other :| other in records[..i] && other.id == record.id && merged[record.id].source == other.source;
        assert other in records && record in records;
        return None;
      }
    }
    assert records[..|records|] == records;
    entries := Some(merged);
  }

  const SOURCE_LOCALE := "zh-CN"

  /** mergeLocaleMessages. */
  method MergeLocaleMessages(existing: map<string, string>, catalog: map<string, Entry>, locale: string)
    returns (messages: map<string, string>)
    ensures messages.Keys == catalog.Keys
    ensures locale == SOURCE_LOCALE ==> forall id :: id in catalog ==> messages[id] == catalog[id].source
    ensures locale != SOURCE_LOCALE
            ==> forall id :: id in catalog ==> messages[id] == if id in existing then existing[id] else ""
  {
    messages := map[];
    var rest := catalog.Keys;
    while rest != {}
      invariant rest <= catalog.Keys && messages.Keys == catalog.Keys - rest
      invariant locale == SOURCE_LOCALE ==> forall id :: id in messages ==> messages[id] == catalog[id].source
      invariant locale != SOURCE_LOCALE
                ==> forall id :: id in messages ==> messages[id] == if id in existing then existing[id] else ""
      decreases rest
    {
      var id :| id in rest;
      rest := rest - {id};
      if locale == SOURCE_LOCALE {
        messages := messages[id := catalog[id].source];
      } else {
        messages := messages[id := if id in existing then existing[id] else ""];
      }
    }
  }

  function Lookup(tables: map<string, map<string, string>>, locale: string, id: string): string {
    if locale in tables && id in tables[locale] then tables[locale][id] else ""
  }

  /** resolveMessage: a blank message counts as none. */
  function ResolveMessage(tables: map<string, map<string, string>>, locale: string, id: string,
                          fallback: string): string {
    if Lookup(tables, locale, id) != "" then Lookup(tables, locale, id)
    else if Lookup(tables, SOURCE_LOCALE, id) != "" then Lookup(tables, SOURCE_LOCALE, id)
    else fallback
  }

  /** What the compiled template shows: without expressions nothing is interpolated. */
  function Shown(tables: map<string, map<string, string>>, locale: string, id: string, t: Template,
                 args: seq<Arg>): string
    requires ValidTemplate(t)
  {
    var text := ResolveMessage(tables, locale, id, Canonical(t, 0));
    if t.expressions == 0 then text else Interpolate(text, args)
  }

  /** The source table is what merging the catalog made of it, and the catalog knows the template. */
  ghost predicate SourceTable(tables: map<string, map<string, string>>, id: string, t: Template)
    requires ValidTemplate(t)
  {
    Lookup(tables, SOURCE_LOCALE, id) == Canonical(t, 0)
  }

  /** In the source locale, and in any locale without a translation of it, a template without
      placeholders of its own shows the original text exactly if no argument is null or undefined,
      whatever placeholders the arguments contain. */
  lemma TemplateRoundTripIff(tables: map<string, map<string, string>>, locale: string, id: string, t: Template,
                             args: seq<Arg>)
    requires ValidTemplate(t) && |args| == t.expressions && ProperArgs(args)
    requires SourceTable(tables, id, t) && (locale == SOURCE_LOCALE || Lookup(tables, locale, id) == "")
    requires Plain(t)
    ensures Shown(tables, locale, id, t, args) == Original(t, args, 0) <==> AllPresent(args)
  {
    if t.expressions > 0 {
      InterpolateCanonical(t, args, 0);
      FilledPlain(t, args, 0);
      if !AllPresent(args) {
        var k :| 0 <= k < |args| && !args[k].Present?;
        assert args[k].Nullish?;
      }
    }
  }

  /** With arguments that are there, the original text is always shown exactly if the template has no
      expressions or no placeholder in its fixed parts. */
  lemma TemplateIsFaithfulIff(tables: map<string, map<string, string>>, locale: string, id: string, t: Template)
    requires ValidTemplate(t)
    requires SourceTable(tables, id, t) && (locale == SOURCE_LOCALE || Lookup(tables, locale, id) == "")
    ensures (forall args: seq<Arg> :: |args| == t.expressions && AllPresent(args)
                                      ==> Shown(tables, locale, id, t, args) == Original(t, args, 0))
            <==> t.expressions == 0 || Plain(t)
  {
    forall args: seq<Arg> | |args| == t.expressions && AllPresent(args) && (t.expressions == 0 || Plain(t))
      ensures Shown(tables, locale, id, t, args) == Original(t, args, 0)
    {
      if t.expressions > 0 { TemplateRoundTripIff(tables, locale, id, t, args); }
    }
    if t.expressions > 0 && !Plain(t) {
      var blanks := seq(t.expressions, i => Present(""));
      InterpolateCanonical(t, blanks, 0);
      FilledBlank(t, blanks, 0);
      assert PlaceholderFrom(t, 0);
      assert |blanks| == t.expressions && AllPresent(blanks);
      assert Shown(tables, locale, id, t, blanks) != Original(t, blanks, 0);
    }
  }

  /** Merging makes the source table the round trip relies on. */
  lemma MergedTableKnowsTemplate(tables: map<string, map<string, string>>, catalog: map<string, Entry>,
                                 records: seq<Record>, r: Record, t: Template)
    requires ValidTemplate(t) && Catalogues(catalog, records) && r in records && r.source == Canonical(t, 0)
    requires SOURCE_LOCALE in tables && tables[SOURCE_LOCALE].Keys == catalog.Keys
    requires forall id :: id in catalog ==> tables[SOURCE_LOCALE][id] == catalog[id].source
    ensures SourceTable(tables, r.id, t)
  {
  }
}
