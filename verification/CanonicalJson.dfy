/** Canonical JSON (`replaySafe.ts`, `inMemoryQueue.ts`): the key-sorted text behind replay detection
    and queue dedupe. A reader that inverts the printer shows what two values with the same text
    have in common: exactly their meaning, with key order, dropped fields and two collisions. */
module CanonicalJson {
  import opened Wrappers
  import opened TextOrder
  import opened Ordering

  // ----- Values -----

  /** A JavaScript value as the printer sees it. A finite number is given by its decimal text, so
      the two zeros are one value; an object lists its own fields in insertion order. */
  datatype Json =
    | Undefined
    | Null
    | Bool(b: bool)
    | Number(text: Text)
    | NonFinite
    | Str(s: Text)
    | Arr(elems: seq<Json>)
    | Obj(fields: seq<Field>)

  datatype Field = Field(key: Text, value: Json)

  /** What a canonical text says. A hole is the empty text an undefined array element prints as. */
  datatype Meaning =
    | Hole
    | MNull
    | MBool(b: bool)
    | MNumber(text: Text)
    | MStr(s: Text)
    | MArr(elems: seq<Meaning>)
    | MObj(fields: map<Text, Meaning>)

  const QUOTE: CodeUnit := 34
  const COMMA: CodeUnit := 44
  const COLON: CodeUnit := 58
  const OPEN_BRACKET: CodeUnit := 91
  const BACKSLASH: CodeUnit := 92
  const CLOSE_BRACKET: CodeUnit := 93
  const LETTER_U: CodeUnit := 117
  const OPEN_BRACE: CodeUnit := 123
  const CLOSE_BRACE: CodeUnit := 125
  const NULL_TEXT: Text := [110, 117, 108, 108]
  const TRUE_TEXT: Text := [116, 114, 117, 101]
  const FALSE_TEXT: Text := [102, 97, 108, 115, 101]

  predicate Digit(c: CodeUnit) {
    48 <= c <= 57
  }

  /** Digits, sign, point and exponent mark. */
  predicate NumberUnit(c: CodeUnit) {
    Digit(c) || c == 43 || c == 45 || c == 46 || c == 101
  }

  predicate NumberText(t: Text) {
    t != [] && (Digit(t[0]) || t[0] == 45) && forall i | 0 <= i < |t| :: NumberUnit(t[i])
  }

  predicate DistinctKeys(fields: seq<Field>) {
    forall i, j | 0 <= i < j < |fields| :: fields[i].key != fields[j].key
  }

  predicate WellFormed(v: Json) {
    match v
    case Number(t) => NumberText(t)
    case Arr(es) => forall e | e in es :: WellFormed(e)
    case Obj(fs) => DistinctKeys(fs) && forall f | f in fs :: WellFormed(f.value)
    case _ => true
  }

  // ----- The printer -----

  predicate HighSurrogate(c: CodeUnit) {
    0xD800 <= c <= 0xDBFF
  }

  predicate LowSurrogate(c: CodeUnit) {
    0xDC00 <= c <= 0xDFFF
  }

  function HexDigit(d: int): CodeUnit
    requires 0 <= d < 16
  {
    if d < 10 then 48 + d else 87 + d
  }

  function UnicodeEscape(c: CodeUnit): Text {
    [BACKSLASH, LETTER_U, HexDigit(c / 4096), HexDigit(c / 256 % 16), HexDigit(c / 16 % 16), HexDigit(c % 16)]
  }

  /** The letter after the backslash in a two-character escape. */
  function ShortEscape(c: CodeUnit): Option<CodeUnit> {
    if c == QUOTE || c == BACKSLASH then Some(c)
    else if c == 8 then Some(98)
    else if c == 9 then Some(116)
    else if c == 10 then Some(110)
    else if c == 12 then Some(102)
    else if c == 13 then Some(114)
    else None
  }

  /** One code unit that is not part of a surrogate pair. */
  function EscapeUnit(c: CodeUnit): Text {
    var short := ShortEscape(c);
    if short.Some? then [BACKSLASH, short.value]
    else if c < 32 || HighSurrogate(c) || LowSurrogate(c) then UnicodeEscape(c)
    else [c]
  }

  function Escape(s: Text): Text {
    if s == [] then []
    else if |s| >= 2 && HighSurrogate(s[0]) && LowSurrogate(s[1]) then s[..2] + Escape(s[2..])
    else EscapeUnit(s[0]) + Escape(s[1..])
  }

  function Quote(s: Text): Text {
    [QUOTE] + Escape(s) + [QUOTE]
  }

  /** A key with the printed text of its value. */
  datatype Entry = Entry(key: Text, text: Text)

  predicate EntryBefore(e: Entry, f: Entry) {
    LexLess(e.key, f.key)
  }

  /** `canonicalJSON`. An undefined value prints as nothing, which is what joining makes of it. */
  function Print(v: Json): Text {
    match v
    case Undefined => []
    case Null => NULL_TEXT
    case NonFinite => NULL_TEXT
    case Bool(b) => if b then TRUE_TEXT else FALSE_TEXT
    case Number(t) => t
    case Str(s) => Quote(s)
    case Arr(es) => [OPEN_BRACKET] + PrintElems(es) + [CLOSE_BRACKET]
    case Obj(fs) => [OPEN_BRACE] + JoinEntries(SortBy(EntryBefore, PrintFields(fs))) + [CLOSE_BRACE]
  }

  function PrintElems(es: seq<Json>): Text {
    if es == [] then []
    else if |es| == 1 then Print(es[0])
    else Print(es[0]) + [COMMA] + PrintElems(es[1..])
  }

  /** The fields that are not undefined, with their values printed. */
  function PrintFields(fs: seq<Field>): seq<Entry> {
    if fs == [] then []
    else
      (if fs[0].value.Undefined? then [] else [Entry(fs[0].key, Print(fs[0].value))]) + PrintFields(fs[1..])
  }

  function JoinEntries(es: seq<Entry>): Text {
    if es == [] then []
    else if |es| == 1 then Quote(es[0].key) + [COLON] + es[0].text
    else Quote(es[0].key) + [COLON] + es[0].text + [COMMA] + JoinEntries(es[1..])
  }

  // ----- The meaning -----

  /** Key order is forgotten, undefined fields are dropped, a non-finite number is null, and an array
      holding nothing but one undefined element is the empty array. */
  function Meant(v: Json): Meaning {
    match v
    case Undefined => Hole
    case Null => MNull
    case NonFinite => MNull
    case Bool(b) => MBool(b)
    case Number(t) => MNumber(t)
    case Str(s) => MStr(s)
    case Arr(es) => MArr(if |es| == 1 && es[0].Undefined? then [] else MeantElems(es))
    case Obj(fs) => MObj(MeantFields(fs))
  }

  function MeantElems(es: seq<Json>): (r: seq<Meaning>)
    ensures |r| == |es|
  {
    if es == [] then [] else [Meant(es[0])] + MeantElems(es[1..])
  }

  function MeantFields(fs: seq<Field>): map<Text, Meaning> {
    if fs == [] then map[]
    else if fs[0].value.Undefined? then MeantFields(fs[1..])
    else MeantFields(fs[1..])[fs[0].key := Meant(fs[0].value)]
  }
}
