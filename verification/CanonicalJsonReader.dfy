/** A reader for canonical JSON texts, and the proof that it recovers the meaning of every printed
    value. Two values print alike exactly when they mean the same. */
module CanonicalJsonReader {
  import opened Wrappers
  import opened TextOrder
  import opened Ordering
  import opened CanonicalJson

  // ----- Strings -----

  function UnHex(c: CodeUnit): int {
    if Digit(c) then c - 48 else c - 87
  }

  /** The code unit a two-character escape stands for. */
  function UnShort(c: CodeUnit): CodeUnit {
    if c == 98 then 8
    else if c == 116 then 9
    else if c == 110 then 10
    else if c == 102 then 12
    else if c == 114 then 13
    else c
  }

  /** Reads up to the closing quote. */
  function ReadString(t: Text): (r: Option<(Text, Text)>)
    ensures r.Some? ==> |r.value.1| < |t|
  {
    if t == [] then None
    else if t[0] == QUOTE then Some(([], t[1..]))
    else if t[0] != BACKSLASH then Prepend(t[0], ReadString(t[1..]))
    else if |t| < 2 then None
    else if t[1] != LETTER_U then Prepend(UnShort(t[1]), ReadString(t[2..]))
    else if |t| < 6 then None
    else
      var code := ((UnHex(t[2]) * 16 + UnHex(t[3])) * 16 + UnHex(t[4])) * 16 + UnHex(t[5]);
      if 0 <= code < 0x1_0000 then Prepend(code, ReadString(t[6..])) else None
  }

  function Prepend(c: CodeUnit, r: Option<(Text, Text)>): Option<(Text, Text)> {
    if r.Some? then Some(([c] + r.value.0, r.value.1)) else None
  }

  lemma HexRoundTrip(d: int)
    requires 0 <= d < 16
    ensures UnHex(HexDigit(d)) == d && HexDigit(d) != QUOTE
  {
  }

  lemma FourDigits(c: CodeUnit)
    ensures 0 <= c / 4096 < 16 && 0 <= c / 256 % 16 < 16 && 0 <= c / 16 % 16 < 16 && 0 <= c % 16 < 16
    ensures ((c / 4096 * 16 + c / 256 % 16) * 16 + c / 16 % 16) * 16 + c % 16 == c
  {
  }

  lemma ReadFourDigits(a: int, b: int, c: int, d: int, t: Text)
    requires 0 <= a < 16 && 0 <= b < 16 && 0 <= c < 16 && 0 <= d < 16
    requires 0 <= ((a * 16 + b) * 16 + c) * 16 + d < 0x1_0000
    ensures ReadString([BACKSLASH, LETTER_U, HexDigit(a), HexDigit(b), HexDigit(c), HexDigit(d)] + t) ==
      Prepend(((a * 16 + b) * 16 + c) * 16 + d, ReadString(t))
  {
    var u := [BACKSLASH, LETTER_U, HexDigit(a), HexDigit(b), HexDigit(c), HexDigit(d)] + t;
    assert u[6..] == t;
    HexRoundTrip(a);
    HexRoundTrip(b);
    HexRoundTrip(c);
    HexRoundTrip(d);
  }

  lemma ReadUnicodeEscape(c: CodeUnit, t: Text)
    ensures ReadString(UnicodeEscape(c) + t) == Prepend(c, ReadString(t))
  {
    FourDigits(c);
    ReadFourDigits(c / 4096, c / 256 % 16, c / 16 % 16, c % 16, t);
  }

  lemma ReadEscapeUnit(c: CodeUnit, t: Text)
    ensures ReadString(EscapeUnit(c) + t) == Prepend(c, ReadString(t))
  {
    var u := EscapeUnit(c) + t;
    var short := ShortEscape(c);
    if short.Some? {
      assert u[2..] == t;
    } else if c < 32 || HighSurrogate(c) || LowSurrogate(c) {
      ReadUnicodeEscape(c, t);
    } else {
      assert u[1..] == t;
    }
  }

  lemma Regroup(a: Text, b: Text, c: Text)
    ensures (a + b) + c == a + (b + c)
  {
  }

  lemma ReadVerbatim(c: CodeUnit, t: Text)
    requires c != QUOTE && c != BACKSLASH
    ensures ReadString([c] + t) == Prepend(c, ReadString(t))
  {
    assert ([c] + t)[1..] == t;
  }

  lemma ReadPair(s: Text, t: Text)
    requires |s| == 2 && HighSurrogate(s[0]) && LowSurrogate(s[1])
    ensures ReadString(s + t) == Prepend(s[0], Prepend(s[1], ReadString(t)))
  {
    ReadVerbatim(s[1], t);
    ReadVerbatim(s[0], [s[1]] + t);
    assert s + t == [s[0]] + ([s[1]] + t);
  }

  /** `s` after the first part of it has been escaped. */
  lemma ReadEscapedHead(head: Text, t: Text, rest: Text, s: Text)
    requires ReadString(t + ([QUOTE] + rest)) == Some((s, rest))
    requires |head| == 1 || (|head| == 2 && HighSurrogate(head[0]) && LowSurrogate(head[1]))
    ensures var escaped := if |head| == 2 then head else EscapeUnit(head[0]);
      ReadString((escaped + t) + ([QUOTE] + rest)) == Some((head + s, rest))
  {
    var after := [QUOTE] + rest;
    if |head| == 2 {
      Regroup(head, t, after);
      ReadPair(head, t + after);
      assert [head[0]] + ([head[1]] + s) == head + s;
    } else {
      Regroup(EscapeUnit(head[0]), t, after);
      ReadEscapeUnit(head[0], t + after);
      assert [head[0]] + s == head + s;
    }
  }

  /** Quoting is uniquely readable, lone surrogates and control characters included. */
  lemma {:induction false} ReadQuoted(s: Text, rest: Text)
    ensures ReadString(Escape(s) + ([QUOTE] + rest)) == Some((s, rest))
    decreases |s|
  {
    if s == [] {
      var after: Text := [QUOTE] + rest;
      assert Escape(s) + after == after && after[1..] == rest;
    } else {
      var k := if |s| >= 2 && HighSurrogate(s[0]) && LowSurrogate(s[1]) then 2 else 1;
      ReadQuoted(s[k..], rest);
      ReadEscapedHead(s[..k], Escape(s[k..]), rest, s[k..]);
      assert s[..k] + s[k..] == s;
    }
  }

  // ----- Numbers -----

  function ReadNumber(t: Text): (r: (Text, Text))
    ensures r.0 + r.1 == t
    ensures t != [] && NumberUnit(t[0]) ==> |r.1| < |t|
  {
    if t == [] || !NumberUnit(t[0]) then ([], t)
    else
      var (digits, rest) := ReadNumber(t[1..]);
      ([t[0]] + digits, rest)
  }

  /** What may follow a value: the end, a comma or a closing bracket. */
  predicate Delimited(rest: Text) {
    rest == [] || rest[0] == COMMA || rest[0] == CLOSE_BRACKET || rest[0] == CLOSE_BRACE
  }

  lemma {:induction false} ReadNumberText(n: Text, rest: Text)
    requires (forall i | 0 <= i < |n| :: NumberUnit(n[i])) && Delimited(rest)
    ensures ReadNumber(n + rest) == (n, rest)
  {
    if n != [] {
      assert (n + rest)[1..] == n[1..] + rest;
      ReadNumberText(n[1..], rest);
      assert n == [n[0]] + n[1..];
    } else {
      assert n + rest == rest;
    }
  }

  // ----- Values -----

  function ReadValue(t: Text): (r: Option<(Meaning, Text)>)
    ensures r.Some? ==> |r.value.1| < |t|
    decreases |t|, 0
  {
    if t == [] then None
    else if t[0] == QUOTE then
      var r := ReadString(t[1..]);
      if r.Some? then Some((MStr(r.value.0), r.value.1)) else None
    else if t[0] == OPEN_BRACKET then
      if |t| > 1 && t[1] == CLOSE_BRACKET then Some((MArr([]), t[2..]))
      else
        var r := ReadElems(t[1..]);
        if r.Some? then Some((MArr(r.value.0), r.value.1)) else None
    else if t[0] == OPEN_BRACE then
      if |t| > 1 && t[1] == CLOSE_BRACE then Some((MObj(map[]), t[2..]))
      else
        var r := ReadEntries(t[1..]);
        if r.Some? then Some((MObj(r.value.0), r.value.1)) else None
    else if NULL_TEXT <= t then Some((MNull, t[4..]))
    else if TRUE_TEXT <= t then Some((MBool(true), t[4..]))
    else if FALSE_TEXT <= t then Some((MBool(false), t[5..]))
    else if NumberUnit(t[0]) then Some((MNumber(ReadNumber(t).0), ReadNumber(t).1))
    else None
  }

  function ReadElems(t: Text): (r: Option<(seq<Meaning>, Text)>)
    ensures r.Some? ==> |r.value.1| < |t|
    decreases |t|, 1
  {
    var first :=
      if t != [] && (t[0] == COMMA || t[0] == CLOSE_BRACKET) then Some((Hole, t)) else ReadValue(t);
    if first.None? || first.value.1 == [] then None
    else
      var (m, rest) := first.value;
      if rest[0] == CLOSE_BRACKET then Some(([m], rest[1..]))
      else if rest[0] != COMMA then None
      else
        var others := ReadElems(rest[1..]);
        if others.Some? then Some(([m] + others.value.0, others.value.1)) else None
  }

  function ReadEntries(t: Text): (r: Option<(map<Text, Meaning>, Text)>)
    ensures r.Some? ==> |r.value.1| < |t|
    decreases |t|, 1
  {
    if t == [] || t[0] != QUOTE then None
    else
      var key := ReadString(t[1..]);
      if key.None? || key.value.1 == [] || key.value.1[0] != COLON then None
      else
        var field := ReadValue(key.value.1[1..]);
        if field.None? || field.value.1 == [] then None
        else
          var (m, rest) := field.value;
          if rest[0] == CLOSE_BRACE then Some((map[key.value.0 := m], rest[1..]))
          else if rest[0] != COMMA then None
          else
            var others := ReadEntries(rest[1..]);
            if others.Some? then Some((others.value.0[key.value.0 := m], others.value.1)) else None
  }

  /** `text` reads as `m` wherever a value may stand. */
  ghost predicate ReadsAs(text: Text, m: Meaning) {
    && text != [] && text[0] != COMMA && text[0] != CLOSE_BRACKET
    && forall rest: Text | Delimited(rest) :: ReadValue(text + rest) == Some((m, rest))
  }

  lemma ScalarReadsAs(v: Json)
    requires WellFormed(v) && !v.Undefined? && !v.Arr? && !v.Obj?
    ensures ReadsAs(Print(v), Meant(v))
  {
    forall rest: Text | Delimited(rest)
      ensures ReadValue(Print(v) + rest) == Some((Meant(v), rest))
    {
      var t := Print(v) + rest;
      match v
      case Str(s) =>
        assert t[1..] == Escape(s) + ([QUOTE] + rest);
        ReadQuoted(s, rest);
      case Number(n) =>
        assert t[0] == n[0];
        ReadNumberText(n, rest);
      case Bool(b) =>
        assert t[..|Print(v)|] == Print(v) && t[|Print(v)|..] == rest;
      case Null =>
        assert t[..4] == NULL_TEXT && t[4..] == rest;
      case NonFinite =>
        assert t[..4] == NULL_TEXT && t[4..] == rest;
      case Undefined =>
      case Arr(_) =>
      case Obj(_) =>
    }
  }

  // ----- Arrays -----

  ghost predicate ElemReadsAs(v: Json, text: Text, m: Meaning) {
    if v.Undefined? then text == [] && m == Hole else ReadsAs(text, m)
  }

  /** What `ReadElems` takes its first element to be. */
  function FirstElem(t: Text): Option<(Meaning, Text)> {
    if t != [] && (t[0] == COMMA || t[0] == CLOSE_BRACKET) then Some((Hole, t)) else ReadValue(t)
  }

  lemma ReadFirstElem(v: Json, text: Text, m: Meaning, after: Text)
    requires ElemReadsAs(v, text, m) && after != [] && (after[0] == COMMA || after[0] == CLOSE_BRACKET)
    ensures FirstElem(text + after) == Some((m, after))
  {
    if v.Undefined? {
      assert text + after == after;
    } else {
      assert (text + after)[0] == text[0];
    }
  }

  lemma ReadLastElem(v: Json, text: Text, m: Meaning, rest: Text)
    requires ElemReadsAs(v, text, m)
    ensures ReadElems(text + [CLOSE_BRACKET] + rest) == Some(([m], rest))
  {
    var after := [CLOSE_BRACKET] + rest;
    Regroup(text, [CLOSE_BRACKET], rest);
    ReadFirstElem(v, text, m, after);
    assert after[1..] == rest;
  }

  lemma ReadOneElem(v: Json, text: Text, m: Meaning, tail: Text)
    requires ElemReadsAs(v, text, m) && ReadElems(tail).Some?
    ensures ReadElems(text + [COMMA] + tail) == Some(([m] + ReadElems(tail).value.0, ReadElems(tail).value.1))
  {
    var after := [COMMA] + tail;
    Regroup(text, [COMMA], tail);
    ReadFirstElem(v, text, m, after);
    assert after[1..] == tail;
  }

  lemma {:induction false} ReadPrintedElems(es: seq<Json>, rest: Text)
    requires es != [] && forall e | e in es :: ElemReadsAs(e, Print(e), Meant(e))
    ensures ReadElems(PrintElems(es) + [CLOSE_BRACKET] + rest) == Some((MeantElems(es), rest))
    decreases |es|
  {
    var e, text := es[0], Print(es[0]);
    assert e in es && ElemReadsAs(e, text, Meant(e));
    if |es| == 1 {
      ReadLastElem(e, text, Meant(e), rest);
      assert MeantElems(es) == [Meant(e)] + MeantElems(es[1..]) == [Meant(e)];
    } else {
      var tail := PrintElems(es[1..]) + [CLOSE_BRACKET] + rest;
      ReadPrintedElems(es[1..], rest);
      ReadOneElem(e, text, Meant(e), tail);
      assert PrintElems(es) + [CLOSE_BRACKET] + rest == text + [COMMA] + tail;
    }
  }

  /** An array that prints as two brackets. */
  lemma EmptyArrayReads(es: seq<Json>, rest: Text)
    requires es == [] || (|es| == 1 && es[0].Undefined?)
    ensures ReadValue(Print(Arr(es)) + rest) == Some((Meant(Arr(es)), rest))
  {
    assert PrintElems(es) == [];
    var t := Print(Arr(es)) + rest;
    assert t == [OPEN_BRACKET, CLOSE_BRACKET] + rest && t[2..] == rest;
    assert es == [] ==> MeantElems(es) == [];
  }

  lemma FilledArrayReads(es: seq<Json>, rest: Text)
    requires es != [] && !(|es| == 1 && es[0].Undefined?)
    requires forall e | e in es :: ElemReadsAs(e, Print(e), Meant(e))
    ensures ReadValue(Print(Arr(es)) + rest) == Some((Meant(Arr(es)), rest))
  {
    var inner := PrintElems(es) + [CLOSE_BRACKET] + rest;
    var t := Print(Arr(es)) + rest;
    assert t == [OPEN_BRACKET] + inner && t[1..] == inner;
    assert es[0] in es && ElemReadsAs(es[0], Print(es[0]), Meant(es[0]));
    assert inner[0] != CLOSE_BRACKET;
    ReadPrintedElems(es, rest);
  }

  lemma ArrayReadsAs(es: seq<Json>)
    requires forall e | e in es :: ElemReadsAs(e, Print(e), Meant(e))
    ensures ReadsAs(Print(Arr(es)), Meant(Arr(es)))
  {
    forall rest: Text | Delimited(rest)
      ensures ReadValue(Print(Arr(es)) + rest) == Some((Meant(Arr(es)), rest))
    {
      if es == [] || (|es| == 1 && es[0].Undefined?) {
        EmptyArrayReads(es, rest);
      } else {
        FilledArrayReads(es, rest);
      }
    }
  }

  // ----- Objects -----

  /** Every entry's text reads as what `m` holds under its key. */
  ghost predicate EntriesReadAs(es: seq<Entry>, m: map<Text, Meaning>) {
    forall e | e in es :: e.key in m && ReadsAs(e.text, m[e.key])
  }

  function KeySet(es: seq<Entry>): set<Text> {
    set e | e in es :: e.key
  }

  /** The text of one entry and of whatever delimits it. */
  function EntryText(e: Entry, after: Text): Text {
    [QUOTE] + (Escape(e.key) + ([QUOTE] + ([COLON] + (e.text + after))))
  }

  lemma EntryTextIsJoined(e: Entry, after: Text)
    ensures Quote(e.key) + [COLON] + e.text + after == EntryText(e, after)
  {
  }

  /** One entry, up to whatever delimits it. */
  lemma ReadEntryHead(e: Entry, m: Meaning, after: Text)
    requires ReadsAs(e.text, m) && Delimited(after)
    ensures var t := EntryText(e, after);
      && t[0] == QUOTE
      && ReadString(t[1..]) == Some((e.key, [COLON] + (e.text + after)))
      && ReadValue(([COLON] + (e.text + after))[1..]) == Some((m, after))
  {
    var value := e.text + after;
    var t := EntryText(e, after);
    assert t[1..] == Escape(e.key) + ([QUOTE] + ([COLON] + value));
    ReadQuoted(e.key, [COLON] + value);
    assert ([COLON] + value)[1..] == value;
  }

  lemma ReadLastEntry(e: Entry, m: Meaning, rest: Text)
    requires ReadsAs(e.text, m)
    ensures ReadEntries(EntryText(e, [CLOSE_BRACE] + rest)) == Some((map[e.key := m], rest))
  {
    var after := [CLOSE_BRACE] + rest;
    ReadEntryHead(e, m, after);
    assert after[1..] == rest;
  }

  lemma ReadOneEntry(e: Entry, m: Meaning, tail: Text)
    requires ReadsAs(e.text, m) && ReadEntries(tail).Some?
    ensures ReadEntries(EntryText(e, [COMMA] + tail)) ==
      Some((ReadEntries(tail).value.0[e.key := m], ReadEntries(tail).value.1))
  {
    var after := [COMMA] + tail;
    ReadEntryHead(e, m, after);
    assert after[1..] == tail;
  }

  function Picked(es: seq<Entry>, m: map<Text, Meaning>): (r: map<Text, Meaning>)
    requires forall e | e in es :: e.key in m
    ensures r.Keys == KeySet(es) && forall k | k in r :: r[k] == m[k]
  {
    map e | e in es :: e.key := m[e.key]
  }

  lemma PickedStep(es: seq<Entry>, m: map<Text, Meaning>)
    requires es != [] && forall e | e in es :: e.key in m
    ensures Picked(es, m) == Picked(es[1..], m)[es[0].key := m[es[0].key]]
  {
    assert es == [es[0]] + es[1..];
    assert KeySet(es) == KeySet(es[1..]) + {es[0].key};
  }

  lemma JoinStep(es: seq<Entry>, rest: Text)
    requires |es| >= 2
    ensures JoinEntries(es) + rest == EntryText(es[0], [COMMA] + (JoinEntries(es[1..]) + rest))
  {
    var head := Quote(es[0].key) + [COLON] + es[0].text;
    var tail := JoinEntries(es[1..]);
    EntryTextIsJoined(es[0], [COMMA] + (tail + rest));
    Regroup(head + [COMMA], tail, rest);
    Regroup(head, [COMMA], tail + rest);
  }

  lemma {:induction false} ReadJoinedEntries(es: seq<Entry>, m: map<Text, Meaning>, rest: Text)
    requires es != [] && EntriesReadAs(es, m)
    ensures ReadEntries(JoinEntries(es) + ([CLOSE_BRACE] + rest)) == Some((Picked(es, m), rest))
    decreases |es|
  {
    var e := es[0];
    assert e in es;
    PickedStep(es, m);
    if |es| == 1 {
      ReadLastEntry(e, m[e.key], rest);
      EntryTextIsJoined(e, [CLOSE_BRACE] + rest);
      assert Picked(es[1..], m) == map[];
    } else {
      var tail := JoinEntries(es[1..]) + ([CLOSE_BRACE] + rest);
      ReadJoinedEntries(es[1..], m, rest);
      ReadOneEntry(e, m[e.key], tail);
      JoinStep(es, [CLOSE_BRACE] + rest);
    }
  }

  /** A printed field comes from a field that is not undefined. */
  lemma {:induction false} PrintedFieldOrigin(fs: seq<Field>, e: Entry) returns (f: Field)
    requires e in PrintFields(fs)
    ensures f in fs && !f.value.Undefined? && e == Entry(f.key, Print(f.value))
    decreases |fs|
  {
    var head := if fs[0].value.Undefined? then [] else [Entry(fs[0].key, Print(fs[0].value))];
    if e in head {
      f := fs[0];
    } else {
      f := PrintedFieldOrigin(fs[1..], e);
    }
  }

  /** Printed fields carry exactly the keys of the meaning. */
  lemma {:induction false} PrintedFieldKeys(fs: seq<Field>)
    ensures KeySet(PrintFields(fs)) == MeantFields(fs).Keys
  {
    if fs != [] {
      PrintedFieldKeys(fs[1..]);
      var tail := PrintFields(fs[1..]);
      if fs[0].value.Undefined? {
        assert PrintFields(fs) == tail;
      } else {
        var head := Entry(fs[0].key, Print(fs[0].value));
        assert PrintFields(fs) == [head] + tail;
        assert KeySet([head] + tail) == KeySet(tail) + {head.key};
      }
    }
  }

  lemma {:induction false} MeantFieldAt(fs: seq<Field>, f: Field)
    requires DistinctKeys(fs) && f in fs && !f.value.Undefined?
    ensures f.key in MeantFields(fs) && MeantFields(fs)[f.key] == Meant(f.value)
  {
    if f != fs[0] {
      assert f in fs[1..] && f.key != fs[0].key;
      MeantFieldAt(fs[1..], f);
    }
  }

  lemma EntriesOfFields(fs: seq<Field>, entries: seq<Entry>)
    requires DistinctKeys(fs)
    requires forall f | f in fs && !f.value.Undefined? :: ReadsAs(Print(f.value), Meant(f.value))
    requires forall e :: e in entries <==> e in PrintFields(fs)
    ensures EntriesReadAs(entries, MeantFields(fs)) && Picked(entries, MeantFields(fs)) == MeantFields(fs)
  {
    var m := MeantFields(fs);
    forall e | e in entries
      ensures e.key in m && ReadsAs(e.text, m[e.key])
    {
      var f := PrintedFieldOrigin(fs, e);
      MeantFieldAt(fs, f);
    }
    PrintedFieldKeys(fs);
    assert KeySet(entries) == KeySet(PrintFields(fs));
  }

  lemma ReadObject(es: seq<Entry>, m: map<Text, Meaning>, rest: Text)
    requires EntriesReadAs(es, m) && Picked(es, m) == m
    ensures ReadValue([OPEN_BRACE] + (JoinEntries(es) + ([CLOSE_BRACE] + rest))) == Some((MObj(m), rest))
  {
    var inner := JoinEntries(es) + ([CLOSE_BRACE] + rest);
    var t := [OPEN_BRACE] + inner;
    assert t[1..] == inner;
    if es == [] {
      assert inner == [CLOSE_BRACE] + rest && t[2..] == rest;
      assert m == map[];
    } else {
      assert inner[0] == QUOTE;
      ReadJoinedEntries(es, m, rest);
    }
  }

  lemma BracedReadsAs(es: seq<Entry>, m: map<Text, Meaning>)
    requires EntriesReadAs(es, m) && Picked(es, m) == m
    ensures ReadsAs([OPEN_BRACE] + JoinEntries(es) + [CLOSE_BRACE], MObj(m))
  {
    var text := [OPEN_BRACE] + JoinEntries(es) + [CLOSE_BRACE];
    forall rest: Text | Delimited(rest)
      ensures ReadValue(text + rest) == Some((MObj(m), rest))
    {
      ReadObject(es, m, rest);
      Regroup([OPEN_BRACE] + JoinEntries(es), [CLOSE_BRACE], rest);
      Regroup([OPEN_BRACE], JoinEntries(es), [CLOSE_BRACE] + rest);
      assert text + rest == [OPEN_BRACE] + (JoinEntries(es) + ([CLOSE_BRACE] + rest));
    }
  }

  lemma ObjectReadsAs(fs: seq<Field>)
    requires DistinctKeys(fs)
    requires forall f | f in fs && !f.value.Undefined? :: ReadsAs(Print(f.value), Meant(f.value))
    ensures ReadsAs(Print(Obj(fs)), Meant(Obj(fs)))
  {
    var sorted := SortBy(EntryBefore, PrintFields(fs));
    SortKeepsMembers(EntryBefore, PrintFields(fs));
    EntriesOfFields(fs, sorted);
    BracedReadsAs(sorted, MeantFields(fs));
  }

  // ----- The round trip -----

  /** Every printed value reads back as its meaning. */
  lemma {:induction false} PrintedReadsAs(v: Json)
    requires WellFormed(v)
    ensures ElemReadsAs(v, Print(v), Meant(v))
  {
    match v
    case Undefined =>
    case Arr(es) =>
      forall e | e in es
        ensures ElemReadsAs(e, Print(e), Meant(e))
      {
        PrintedReadsAs(e);
      }
      ArrayReadsAs(es);
    case Obj(fs) =>
      forall f | f in fs && !f.value.Undefined?
        ensures ReadsAs(Print(f.value), Meant(f.value))
      {
        PrintedReadsAs(f.value);
      }
      ObjectReadsAs(fs);
    case _ =>
      ScalarReadsAs(v);
  }

  /** Same text, same meaning: nothing a value means is lost in print. */
  lemma PrintDeterminesMeaning(v: Json, w: Json)
    requires WellFormed(v) && WellFormed(w) && Print(v) == Print(w)
    ensures Meant(v) == Meant(w)
  {
    PrintedReadsAs(v);
    PrintedReadsAs(w);
    var none: Text := [];
    assert Print(v) + none == Print(v) && Print(w) + none == Print(w);
    assert !v.Undefined? ==> ReadValue(Print(v) + none) == Some((Meant(v), none));
    assert !w.Undefined? ==> ReadValue(Print(w) + none) == Some((Meant(w), none));
  }

  // ----- Same meaning, same text -----

  lemma {:induction false} ElemsPrintAlike(es: seq<Json>, fs: seq<Json>)
    requires |es| == |fs| && forall i | 0 <= i < |es| :: Print(es[i]) == Print(fs[i])
    ensures PrintElems(es) == PrintElems(fs)
  {
    if |es| > 1 {
      ElemsPrintAlike(es[1..], fs[1..]);
    }
  }

  lemma {:induction false} MeantElemAt(es: seq<Json>, i: nat)
    requires i < |es|
    ensures MeantElems(es)[i] == Meant(es[i])
  {
    if i > 0 {
      MeantElemAt(es[1..], i - 1);
    }
  }

  lemma {:induction false} MeantFieldOrigin(fs: seq<Field>, k: Text) returns (f: Field)
    requires k in MeantFields(fs)
    ensures f in fs && f.key == k && !f.value.Undefined?
  {
    if !fs[0].value.Undefined? && fs[0].key == k {
      f := fs[0];
    } else {
      f := MeantFieldOrigin(fs[1..], k);
    }
  }

  lemma {:induction false} FieldIsPrinted(fs: seq<Field>, f: Field)
    requires f in fs && !f.value.Undefined?
    ensures Entry(f.key, Print(f.value)) in PrintFields(fs)
  {
    if f != fs[0] {
      FieldIsPrinted(fs[1..], f);
    }
  }

  ghost predicate DistinctEntryKeys(es: seq<Entry>) {
    forall i, j | 0 <= i < j < |es| :: es[i].key != es[j].key
  }

  lemma {:induction false} PrintedKeysDistinct(fs: seq<Field>)
    requires DistinctKeys(fs)
    ensures DistinctEntryKeys(PrintFields(fs))
  {
    if fs != [] {
      var tail := PrintFields(fs[1..]);
      PrintedKeysDistinct(fs[1..]);
      forall e | e in tail
        ensures e.key != fs[0].key
      {
        var f := PrintedFieldOrigin(fs[1..], e);
      }
    }
  }

  lemma EntryOrder(es: seq<Entry>)
    requires DistinctEntryKeys(es)
    ensures Distinct(es) && StrictTotalOn(EntryBefore, es)
  {
    forall a | a in es
      ensures !EntryBefore(a, a)
    {
      LexIrreflexive(a.key);
    }
    forall a, b | a in es && b in es
      ensures a == b || EntryBefore(a, b) || EntryBefore(b, a)
    {
      LexTotal(a.key, b.key);
    }
    forall a, b, c | a in es && b in es && c in es && EntryBefore(a, b) && EntryBefore(b, c)
      ensures EntryBefore(a, c)
    {
      LexTransitive(a.key, b.key, c.key);
    }
  }

  /** Lists of entries with the same members sort alike: what key sorting is for. */
  lemma SameEntriesSortAlike(es: seq<Entry>, fs: seq<Entry>)
    requires DistinctEntryKeys(es) && DistinctEntryKeys(fs)
    requires forall e :: e in es <==> e in fs
    ensures SortBy(EntryBefore, es) == SortBy(EntryBefore, fs)
  {
    EntryOrder(es);
    EntryOrder(fs);
    SortOutcome(EntryBefore, es);
    SortOutcome(EntryBefore, fs);
    AscendingUnique(EntryBefore, SortBy(EntryBefore, es), SortBy(EntryBefore, fs));
  }

  /** Fields printed from `fs` are printed from `gs`, when the two mean the same. */
  lemma EntriesCarryOver(fs: seq<Field>, gs: seq<Field>, e: Entry)
    requires DistinctKeys(fs) && DistinctKeys(gs) && MeantFields(fs) == MeantFields(gs)
    requires forall f, g | f in fs && g in gs && Meant(f.value) == Meant(g.value) :: Print(f.value) == Print(g.value)
    requires e in PrintFields(fs)
    ensures e in PrintFields(gs)
  {
    var f := PrintedFieldOrigin(fs, e);
    MeantFieldAt(fs, f);
    var g := MeantFieldOrigin(gs, f.key);
    MeantFieldAt(gs, g);
    FieldIsPrinted(gs, g);
  }

  lemma EntriesCarryOverBothWays(fs: seq<Field>, gs: seq<Field>, e: Entry)
    requires DistinctKeys(fs) && DistinctKeys(gs) && MeantFields(fs) == MeantFields(gs)
    requires forall f, g | f in fs && g in gs && Meant(f.value) == Meant(g.value) :: Print(f.value) == Print(g.value)
    ensures e in PrintFields(fs) <==> e in PrintFields(gs)
  {
    if e in PrintFields(fs) {
      EntriesCarryOver(fs, gs, e);
    }
    if e in PrintFields(gs) {
      EntriesCarryOver(gs, fs, e);
    }
  }

  lemma FieldsPrintAlike(fs: seq<Field>, gs: seq<Field>)
    requires DistinctKeys(fs) && DistinctKeys(gs) && MeantFields(fs) == MeantFields(gs)
    requires forall f, g | f in fs && g in gs && Meant(f.value) == Meant(g.value) :: Print(f.value) == Print(g.value)
    ensures Print(Obj(fs)) == Print(Obj(gs))
  {
    PrintedKeysDistinct(fs);
    PrintedKeysDistinct(gs);
    forall e
      ensures e in PrintFields(fs) <==> e in PrintFields(gs)
    {
      EntriesCarryOverBothWays(fs, gs, e);
    }
    SameEntriesSortAlike(PrintFields(fs), PrintFields(gs));
  }

  lemma {:induction false} MeaningDeterminesPrint(v: Json, w: Json)
    requires WellFormed(v) && WellFormed(w) && Meant(v) == Meant(w)
    ensures Print(v) == Print(w)
  {
    match v
    case Arr(es) =>
      if |es| == |w.elems| {
        forall i | 0 <= i < |es|
          ensures Print(es[i]) == Print(w.elems[i])
        {
          assert es[i] in es && w.elems[i] in w.elems;
          MeantElemAt(es, i);
          MeantElemAt(w.elems, i);
          MeaningDeterminesPrint(es[i], w.elems[i]);
        }
        ElemsPrintAlike(es, w.elems);
      } else {
        assert PrintElems(es) == PrintElems(w.elems) == [];
      }
    case Obj(fs) =>
      forall f, g | f in fs && g in w.fields && Meant(f.value) == Meant(g.value)
        ensures Print(f.value) == Print(g.value)
      {
        MeaningDeterminesPrint(f.value, g.value);
      }
      FieldsPrintAlike(fs, w.fields);
    case _ =>
  }

  /** Two canonical texts are equal exactly when the values mean the same. */
  lemma SameTextIffSameMeaning(v: Json, w: Json)
    requires WellFormed(v) && WellFormed(w)
    ensures Print(v) == Print(w) <==> Meant(v) == Meant(w)
  {
    if Print(v) == Print(w) {
      PrintDeterminesMeaning(v, w);
    }
    if Meant(v) == Meant(w) {
      MeaningDeterminesPrint(v, w);
    }
  }

  // ----- Equality up to key order -----

  /** No undefined array element, no non-finite number anywhere. */
  predicate Plain(v: Json) {
    match v
    case NonFinite => false
    case Arr(es) => forall e | e in es :: !e.Undefined? && Plain(e)
    case Obj(fs) => forall f | f in fs :: Plain(f.value)
    case _ => true
  }

  predicate KeyPresent(fs: seq<Field>, key: Text) {
    exists f | f in fs :: f.key == key && !f.value.Undefined?
  }

  /** Equal up to the order of object keys, an undefined field counting as absent. */
  predicate EqualUpToKeyOrder(v: Json, w: Json) {
    match (v, w)
    case (Arr(es), Arr(fs)) =>
      |es| == |fs| && forall i | 0 <= i < |es| :: EqualUpToKeyOrder(es[i], fs[i])
    case (Obj(fs), Obj(gs)) =>
      && (forall f | f in fs && !f.value.Undefined? ::
            exists g | g in gs :: g.key == f.key && !g.value.Undefined? && EqualUpToKeyOrder(f.value, g.value))
      && (forall g | g in gs && !g.value.Undefined? :: KeyPresent(fs, g.key))
    case _ => v == w
  }

  lemma {:induction false} SameMeaningIffEqual(v: Json, w: Json)
    requires WellFormed(v) && WellFormed(w) && Plain(v) && Plain(w)
    ensures Meant(v) == Meant(w) <==> EqualUpToKeyOrder(v, w)
    decreases v, 1
  {
    match v
    case Arr(es) =>
      if w.Arr? {
        ArraysEqual(es, w.elems);
      }
    case Obj(fs) =>
      if w.Obj? {
        ObjectsEqual(fs, w.fields);
      }
    case _ =>
  }

  lemma {:induction false} ArraysEqual(es: seq<Json>, fs: seq<Json>)
    requires WellFormed(Arr(es)) && WellFormed(Arr(fs)) && Plain(Arr(es)) && Plain(Arr(fs))
    ensures Meant(Arr(es)) == Meant(Arr(fs)) <==> EqualUpToKeyOrder(Arr(es), Arr(fs))
    decreases Arr(es), 0
  {
    assert |es| == 1 ==> es[0] in es;
    assert |fs| == 1 ==> fs[0] in fs;
    if |es| == |fs| {
      forall i | 0 <= i < |es|
        ensures MeantElems(es)[i] == MeantElems(fs)[i] <==> EqualUpToKeyOrder(es[i], fs[i])
      {
        assert es[i] in es && fs[i] in fs;
        MeantElemAt(es, i);
        MeantElemAt(fs, i);
        SameMeaningIffEqual(es[i], fs[i]);
      }
    }
  }

  lemma {:induction false} ObjectsEqual(fs: seq<Field>, gs: seq<Field>)
    requires WellFormed(Obj(fs)) && WellFormed(Obj(gs)) && Plain(Obj(fs)) && Plain(Obj(gs))
    ensures Meant(Obj(fs)) == Meant(Obj(gs)) <==> EqualUpToKeyOrder(Obj(fs), Obj(gs))
    decreases Obj(fs), 0
  {
    forall f, g | f in fs && g in gs
      ensures Meant(f.value) == Meant(g.value) <==> EqualUpToKeyOrder(f.value, g.value)
    {
      SameMeaningIffEqual(f.value, g.value);
    }
    if MeantFields(fs) == MeantFields(gs) {
      SameFieldsEqual(fs, gs);
    }
    if EqualUpToKeyOrder(Obj(fs), Obj(gs)) {
      EqualFieldsCover(fs, gs);
      EqualFieldsPresent(fs, gs);
      assert MeantFields(fs) == MeantFields(gs);
    }
  }

  lemma SameFieldsEqual(fs: seq<Field>, gs: seq<Field>)
    requires DistinctKeys(fs) && DistinctKeys(gs) && MeantFields(fs) == MeantFields(gs)
    requires forall f, g | f in fs && g in gs ::
      Meant(f.value) == Meant(g.value) <==> EqualUpToKeyOrder(f.value, g.value)
    ensures EqualUpToKeyOrder(Obj(fs), Obj(gs))
  {
    forall f | f in fs && !f.value.Undefined?
      ensures exists g | g in gs :: g.key == f.key && !g.value.Undefined? && EqualUpToKeyOrder(f.value, g.value)
    {
      MeantFieldAt(fs, f);
      var g := MeantFieldOrigin(gs, f.key);
      MeantFieldAt(gs, g);
    }
    forall g | g in gs && !g.value.Undefined?
      ensures KeyPresent(fs, g.key)
    {
      MeantFieldAt(gs, g);
      var f := MeantFieldOrigin(fs, g.key);
    }
  }

  lemma FieldCounterpart(fs: seq<Field>, gs: seq<Field>, f: Field) returns (g: Field)
    requires EqualUpToKeyOrder(Obj(fs), Obj(gs)) && f in fs && !f.value.Undefined?
    ensures g in gs && g.key == f.key && !g.value.Undefined? && EqualUpToKeyOrder(f.value, g.value)
  {
    g :| g in gs && g.key == f.key && !g.value.Undefined? && EqualUpToKeyOrder(f.value, g.value);
  }

  lemma FieldPresent(fs: seq<Field>, gs: seq<Field>, g: Field) returns (f: Field)
    requires EqualUpToKeyOrder(Obj(fs), Obj(gs)) && g in gs && !g.value.Undefined?
    ensures f in fs && f.key == g.key && !f.value.Undefined?
  {
    assert KeyPresent(fs, g.key);
    f :| f in fs && f.key == g.key && !f.value.Undefined?;
  }

  /** `gs` holds, under every key of `fs`, a value that means the same. */
  ghost predicate Covers(fs: seq<Field>, gs: seq<Field>) {
    forall k | k in MeantFields(fs) :: k in MeantFields(gs) && MeantFields(gs)[k] == MeantFields(fs)[k]
  }

  lemma EqualFieldsCover(fs: seq<Field>, gs: seq<Field>)
    requires DistinctKeys(fs) && DistinctKeys(gs) && EqualUpToKeyOrder(Obj(fs), Obj(gs))
    requires forall f, g | f in fs && g in gs && EqualUpToKeyOrder(f.value, g.value) :: Meant(f.value) == Meant(g.value)
    ensures Covers(fs, gs)
  {
    forall k | k in MeantFields(fs)
      ensures k in MeantFields(gs) && MeantFields(gs)[k] == MeantFields(fs)[k]
    {
      var f := MeantFieldOrigin(fs, k);
      MeantFieldAt(fs, f);
      var g := FieldCounterpart(fs, gs, f);
      MeantFieldAt(gs, g);
    }
  }

  lemma EqualFieldsPresent(fs: seq<Field>, gs: seq<Field>)
    requires DistinctKeys(fs) && EqualUpToKeyOrder(Obj(fs), Obj(gs))
    ensures MeantFields(gs).Keys <= MeantFields(fs).Keys
  {
    forall k | k in MeantFields(gs)
      ensures k in MeantFields(fs)
    {
      var g := MeantFieldOrigin(gs, k);
      var f := FieldPresent(fs, gs, g);
      MeantFieldAt(fs, f);
    }
  }

  /** `deepEquals`: on plain values the canonical texts agree exactly when the values are equal up to
      the order of object keys. */
  lemma DeepEqualsIsEquality(v: Json, w: Json)
    requires WellFormed(v) && WellFormed(w) && Plain(v) && Plain(w)
    ensures Print(v) == Print(w) <==> EqualUpToKeyOrder(v, w)
  {
    SameTextIffSameMeaning(v, w);
    SameMeaningIffEqual(v, w);
  }

  /** Off the plain values the texts do collide: an array of one undefined element prints as the
      empty array, and a non-finite number prints as null. */
  lemma TextsCollide()
    ensures Print(Arr([Undefined])) == Print(Arr([])) && !EqualUpToKeyOrder(Arr([Undefined]), Arr([]))
    ensures Print(NonFinite) == Print(Null) && !EqualUpToKeyOrder(NonFinite, Null)
  {
    assert PrintElems([Undefined]) == Print(Undefined) == [];
  }
}
