/**
 * The Python values a tool receives as arguments or returns as a result, and the
 * part of the standard `json` module the dispatcher relies on: `json.dumps` with its
 * default settings (separators ", " and ": ", `ensure_ascii` on), and, as its partner,
 * a decoder for JSON objects whose members are all strings, which is the shape of
 * the dispatcher's error payload.
 */
module PyJson {
  import opened Wrappers

  /**
   * A Python value, as far as `json.dumps` and the dispatcher's output coercion can
   * tell values apart. A dict keeps its insertion order; its keys are strings.
   * `POther` is any other object that `json.dumps` rejects (a set, an instance of a
   * user class): `typeName` is its class name and `text` is what `str()` gives for
   * it. A tuple, which `json.dumps` writes as an array, is not a `POther`.
   */
  datatype PyValue =
    | PNone
    | PBool(b: bool)
    | PInt(i: int)
    | PStr(s: string)
    | PList(items: seq<PyValue>)
    | PDict(entries: seq<(string, PyValue)>)
    | POther(typeName: string, text: string)

  // Sizes, used as termination measures for the recursion through lists and dicts.

  function Size(v: PyValue): nat
  {
    match v
    case PList(items) => 1 + ItemsSize(items)
    case PDict(entries) => 1 + EntriesSize(entries)
    case _ => 1
  }

  function ItemsSize(items: seq<PyValue>): nat
  {
    if items == [] then 0 else 1 + Size(items[0]) + ItemsSize(items[1..])
  }

  function EntriesSize(entries: seq<(string, PyValue)>): nat
  {
    if entries == [] then 0 else 1 + EntrySize(entries[0]) + EntriesSize(entries[1..])
  }

  function EntrySize(entry: (string, PyValue)): nat
  {
    Size(entry.1)
  }

  /** True when no object that `json.dumps` rejects occurs anywhere inside `v`. */
  predicate Serializable(v: PyValue)
    decreases Size(v)
  {
    match v
    case POther(_, _) => false
    case PList(items) => ItemsSerializable(items)
    case PDict(entries) => EntriesSerializable(entries)
    case _ => true
  }

  predicate ItemsSerializable(items: seq<PyValue>)
    decreases ItemsSize(items)
  {
    items == [] || (Serializable(items[0]) && ItemsSerializable(items[1..]))
  }

  predicate EntriesSerializable(entries: seq<(string, PyValue)>)
    decreases EntriesSize(entries)
  {
    entries == [] ||
    (assert EntrySize(entries[0]) == Size(entries[0].1);
     Serializable(entries[0].1) && EntriesSerializable(entries[1..]))
  }

  // Decimal notation, shared by `json.dumps` and `str()` on integers.

  function DigitChar(d: nat): char
    requires d < 10
  {
    ('0' as int + d) as char
  }

  function NatDigits(n: nat): string
  {
    if n < 10 then [DigitChar(n)] else NatDigits(n / 10) + [DigitChar(n % 10)]
  }

  function Decimal(i: int): string
  {
    if i < 0 then "-" + NatDigits(-i) else NatDigits(i)
  }

  // String escaping with `ensure_ascii` on.

  function HexDigit(d: nat): char
    requires d < 16
  {
    if d < 10 then DigitChar(d) else ('a' as int + d - 10) as char
  }

  /** Four lower-case hexadecimal digits, as `'\\u{0:04x}'.format(n)` writes them. */
  function Hex4(n: nat): string
    requires n < 0x10000
  {
    [HexDigit(n / 16 / 16 / 16), HexDigit(n / 16 / 16 % 16), HexDigit(n / 16 % 16), HexDigit(n % 16)]
  }

  /**
   * How one character of a string appears inside the quotes: the quote and the
   * backslash and the five named control characters get their short escapes,
   * every other character outside printable ASCII becomes `\uXXXX`, and a
   * character beyond the Basic Multilingual Plane becomes a surrogate pair.
   */
  function EscapeChar(c: char): string
  {
    if c == '"' then "\\\""
    else if c == '\\' then "\\\\"
    else if c == '\n' then "\\n"
    else if c == '\r' then "\\r"
    else if c == '\t' then "\\t"
    else if c as int == 8 then "\\b"
    else if c as int == 12 then "\\f"
    else if ' ' <= c <= '~' then [c]
    else if c as int < 0x10000 then "\\u" + Hex4(c as int)
    else
      var v := c as int - 0x10000;
      "\\u" + Hex4(0xD800 + v / 0x400) + "\\u" + Hex4(0xDC00 + v % 0x400)
  }

  function EscapeString(s: string): string
  {
    if s == [] then "" else EscapeChar(s[0]) + EscapeString(s[1..])
  }

  function QuoteString(s: string): string
  {
    "\"" + EscapeString(s) + "\""
  }

  /** The message of the `TypeError` that `json.dumps` raises on an object it cannot encode. */
  function NotSerializableMessage(typeName: string): string
  {
    "Object of type " + typeName + " is not JSON serializable"
  }

  /**
   * `json.dumps(v)`: the encoding, or the message of the `TypeError` raised at the
   * first object (in encoding order) that JSON has no form for.
   */
  function Dumps(v: PyValue): (r: Result<string, string>)
    ensures r.Err? ==> exists t :: r.error == NotSerializableMessage(t)
    decreases Size(v)
  {
    match v
    case PNone => Ok("null")
    case PBool(b) => Ok(if b then "true" else "false")
    case PInt(i) => Ok(Decimal(i))
    case PStr(s) => Ok(QuoteString(s))
    case PList(items) =>
      (match DumpsItems(items)
       case Ok(body) => Ok("[" + body + "]")
       case Err(e) => Err(e))
    case PDict(entries) =>
      (match DumpsEntries(entries)
       case Ok(body) => Ok("{" + body + "}")
       case Err(e) => Err(e))
    case POther(typeName, _) => Err(NotSerializableMessage(typeName))
  }

  /** The items of a list, separated by ", ". */
  function DumpsItems(items: seq<PyValue>): (r: Result<string, string>)
    ensures r.Err? ==> exists t :: r.error == NotSerializableMessage(t)
    decreases ItemsSize(items)
  {
    if items == [] then Ok("")
    else
      match Dumps(items[0])
      case Err(e) => Err(e)
      case Ok(first) =>
        if |items| == 1 then Ok(first)
        else
          match DumpsItems(items[1..])
          case Err(e) => Err(e)
          case Ok(rest) => Ok(first + ", " + rest)
  }

  /** The members of a dict, each as `"key": value`, separated by ", ". */
  function DumpsEntries(entries: seq<(string, PyValue)>): (r: Result<string, string>)
    ensures r.Err? ==> exists t :: r.error == NotSerializableMessage(t)
    decreases EntriesSize(entries)
  {
    if entries == [] then Ok("")
    else
      assert EntrySize(entries[0]) == Size(entries[0].1);
      match Dumps(entries[0].1)
      case Err(e) => Err(e)
      case Ok(value) =>
        var first := QuoteString(entries[0].0) + ": " + value;
        if |entries| == 1 then Ok(first)
        else
          match DumpsEntries(entries[1..])
          case Err(e) => Err(e)
          case Ok(rest) => Ok(first + ", " + rest)
  }

  /** Every character is printable ASCII, from the space to the tilde. */
  predicate PrintableAscii(s: string)
  {
    forall k :: 0 <= k < |s| ==> ' ' <= s[k] <= '~'
  }

  /**
   * `str()` of a value that is neither a string, a list nor a dict (the values the
   * dispatcher hands to `str()`): `None`, `True`/`False`, the decimal digits of an
   * integer, and an other object's own text.
   */
  function PyStr(v: PyValue): (r: string)
    requires !(v.PStr? || v.PList? || v.PDict?)
    ensures v.PInt? ==> Dumps(v) == Ok(r) && ParseDecimal(r) == Some(v.i)
    ensures v.POther? ==> r == v.text
  {
    match v
    case PNone => "None"
    case PBool(b) => if b then "True" else "False"
    case PInt(i) => DecimalRoundTrip(i); Decimal(i)
    case POther(_, text) => text
  }

  /** The value of a decimal digit. */
  function DigitValue(c: char): Option<nat>
  {
    if '0' <= c <= '9' then Some(c as int - '0' as int) else None
  }

  /** `int(s)` on a non-empty run of decimal digits. */
  function ParseNat(s: string): Option<nat>
  {
    if s == [] then None
    else if |s| == 1 then DigitValue(s[0])
    else
      match (ParseNat(s[..|s| - 1]), DigitValue(s[|s| - 1]))
      case (Some(high), Some(low)) => Some(high * 10 + low)
      case _ => None
  }

  /** `int(s)` on decimal text with an optional leading minus sign. */
  function ParseDecimal(s: string): Option<int>
  {
    if |s| > 0 && s[0] == '-' then
      match ParseNat(s[1..])
      case Some(n) => Some(-(n as int))
      case None => None
    else ParseNat(s)
  }

  lemma {:induction false} NatDigitsRoundTrip(n: nat)
    ensures ParseNat(NatDigits(n)) == Some(n)
    ensures |NatDigits(n)| > 0 && NatDigits(n)[0] != '-'
  {
    if n >= 10 {
      NatDigitsRoundTrip(n / 10);
      var s := NatDigits(n);
      assert s[..|s| - 1] == NatDigits(n / 10);
    }
  }

  /** The decimal text of an integer reads back as that integer. */
  lemma DecimalRoundTrip(i: int)
    ensures ParseDecimal(Decimal(i)) == Some(i)
  {
    if i < 0 {
      NatDigitsRoundTrip(-i);
      assert Decimal(i)[1..] == NatDigits(-i);
    } else {
      NatDigitsRoundTrip(i);
    }
  }

  // The decoding side: JSON string literals and objects whose members are strings.

  function HexValue(c: char): Option<nat>
  {
    if '0' <= c <= '9' then Some(c as int - '0' as int)
    else if 'a' <= c <= 'f' then Some(c as int - 'a' as int + 10)
    else if 'A' <= c <= 'F' then Some(c as int - 'A' as int + 10)
    else None
  }

  function ParseHex4(t: string): (r: Option<nat>)
    ensures r.Some? ==> |t| >= 4 && r.value < 0x10000
  {
    if |t| < 4 then None
    else
      match (HexValue(t[0]), HexValue(t[1]), HexValue(t[2]), HexValue(t[3]))
      case (Some(a), Some(b), Some(c), Some(d)) =>
        if a < 16 && b < 16 && c < 16 && d < 16 then Some(((a * 16 + b) * 16 + c) * 16 + d) else None
      case _ => None
  }

  /** Decodes what follows `\u`: one code unit, or a high and a low surrogate written as two escapes. */
  function DecodeUnicodeEscape(t: string): (r: Option<(char, string)>)
    ensures r.Some? ==> |r.value.1| < |t|
  {
    match ParseHex4(t)
    case None => None
    case Some(hi) =>
      if hi < 0xD800 || 0xE000 <= hi then Some((hi as char, t[4..]))
      else if hi < 0xDC00 && |t| >= 6 && t[4] == '\\' && t[5] == 'u' then
        match ParseHex4(t[6..])
        case None => None
        case Some(lo) =>
          if 0xDC00 <= lo < 0xE000 then Some(((0x10000 + (hi - 0xD800) * 0x400 + (lo - 0xDC00)) as char, t[10..]))
          else None
      else None
  }

  /** Decodes what follows a backslash inside a string literal. */
  function DecodeEscape(t: string): (r: Option<(char, string)>)
    ensures r.Some? ==> |r.value.1| < |t|
  {
    if |t| == 0 then None
    else if t[0] == '"' || t[0] == '\\' || t[0] == '/' then Some((t[0], t[1..]))
    else if t[0] == 'b' then Some((8 as char, t[1..]))
    else if t[0] == 'f' then Some((12 as char, t[1..]))
    else if t[0] == 'n' then Some(('\n', t[1..]))
    else if t[0] == 'r' then Some(('\r', t[1..]))
    else if t[0] == 't' then Some(('\t', t[1..]))
    else if t[0] == 'u' then DecodeUnicodeEscape(t[1..])
    else None
  }

  /**
   * Decodes one character of a string literal's inside: an escape, or a character
   * standing for itself. A raw control character is refused, as a strict decoder does.
   */
  function DecodeUnit(s: string): (r: Option<(char, string)>)
    requires |s| > 0
    ensures r.Some? ==> |r.value.1| < |s|
  {
    if s[0] == '\\' then DecodeEscape(s[1..])
    else if s[0] < ' ' then None
    else Some((s[0], s[1..]))
  }

  /**
   * Decodes the inside of a string literal up to and including its closing quote:
   * the decoded text and what follows the quote.
   */
  function DecodeBody(s: string): (r: Option<(string, string)>)
    ensures r.Some? ==> |r.value.1| < |s|
    decreases |s|
  {
    if |s| == 0 then None
    else if s[0] == '"' then Some(("", s[1..]))
    else
      match DecodeUnit(s)
      case None => None
      case Some((c, rest)) =>
        match DecodeBody(rest)
        case None => None
        case Some((body, after)) => Some(([c] + body, after))
  }

  /** A string literal at the start of `s`: its value and what follows it. */
  function ParseString(s: string): (r: Option<(string, string)>)
    ensures r.Some? ==> |r.value.1| < |s|
  {
    if |s| > 0 && s[0] == '"' then DecodeBody(s[1..]) else None
  }

  /** A JSON object whose members are all strings, laid out with the separators `json.dumps` uses. */
  function ParseStringObject(s: string): Option<seq<(string, string)>>
  {
    if s == "{}" then Some([])
    else if |s| > 0 && s[0] == '{' then ParseMembers(s[1..])
    else None
  }

  /** One member `"key": "value"` at the start of `s`, and what follows it. */
  function ParseMember(s: string): (r: Option<((string, string), string)>)
    ensures r.Some? ==> |r.value.1| < |s|
  {
    match ParseString(s)
    case None => None
    case Some((key, r1)) =>
      if |r1| < 2 || r1[..2] != ": " then None
      else
        match ParseString(r1[2..])
        case None => None
        case Some((value, r2)) => Some(((key, value), r2))
  }

  /** The members of such an object and its closing brace. */
  function ParseMembers(s: string): Option<seq<(string, string)>>
    decreases |s|
  {
    match ParseMember(s)
    case None => None
    case Some((member, r2)) =>
      if r2 == "}" then Some([member])
      else if |r2| >= 2 && r2[..2] == ", " then
        match ParseMembers(r2[2..])
        case None => None
        case Some(rest) => Some([member] + rest)
      else None
  }

  /** A dict whose values are the given strings, in the given order. */
  function StringDict(members: seq<(string, string)>): (v: PyValue)
    ensures v.PDict? && |v.entries| == |members|
    ensures forall k :: 0 <= k < |members| ==> v.entries[k] == (members[k].0, PStr(members[k].1))
  {
    PDict(seq(|members|, k requires 0 <= k < |members| => (members[k].0, PStr(members[k].1))))
  }

  // Properties of the encoder.

  /** `json.dumps` succeeds exactly on the values that contain no unencodable object. */
  lemma {:induction false} DumpsOkIffSerializable(v: PyValue)
    ensures Dumps(v).Ok? <==> Serializable(v)
    ensures !Serializable(v) ==> exists t :: Dumps(v) == Err(NotSerializableMessage(t))
    decreases Size(v)
  {
    match v
    case PList(items) => ItemsOkIffSerializable(items);
    case PDict(entries) => EntriesOkIffSerializable(entries);
    case _ =>
  }

  lemma {:induction false} ItemsOkIffSerializable(items: seq<PyValue>)
    ensures DumpsItems(items).Ok? <==> ItemsSerializable(items)
    decreases ItemsSize(items)
  {
    if items != [] {
      DumpsOkIffSerializable(items[0]);
      ItemsOkIffSerializable(items[1..]);
    }
  }

  lemma {:induction false} EntriesOkIffSerializable(entries: seq<(string, PyValue)>)
    ensures DumpsEntries(entries).Ok? <==> EntriesSerializable(entries)
    decreases EntriesSize(entries)
  {
    if entries != [] {
      assert EntrySize(entries[0]) == Size(entries[0].1);
      DumpsOkIffSerializable(entries[0].1);
      EntriesOkIffSerializable(entries[1..]);
    }
  }

  lemma {:induction false} NatDigitsPrintable(n: nat)
    ensures PrintableAscii(NatDigits(n)) && |NatDigits(n)| > 0
  {
    if n >= 10 {
      NatDigitsPrintable(n / 10);
    }
  }

  lemma EscapeCharPrintable(c: char)
    ensures PrintableAscii(EscapeChar(c))
  {
  }

  lemma {:induction false} EscapeStringPrintable(s: string)
    ensures PrintableAscii(EscapeString(s))
  {
    if s != [] {
      EscapeCharPrintable(s[0]);
      EscapeStringPrintable(s[1..]);
    }
  }

  /** With `ensure_ascii` on, every successful encoding is printable ASCII, whatever the strings inside hold. */
  lemma {:induction false} DumpsIsPrintableAscii(v: PyValue)
    ensures Dumps(v).Ok? ==> PrintableAscii(Dumps(v).value)
    decreases Size(v)
  {
    match v
    case PInt(i) =>
      NatDigitsPrintable(if i < 0 then -i else i);
    case PStr(s) =>
      EscapeStringPrintable(s);
    case PList(items) =>
      ItemsPrintable(items);
    case PDict(entries) =>
      EntriesPrintable(entries);
    case _ =>
  }

  lemma {:induction false} ItemsPrintable(items: seq<PyValue>)
    ensures DumpsItems(items).Ok? ==> PrintableAscii(DumpsItems(items).value)
    decreases ItemsSize(items)
  {
    if items != [] {
      DumpsIsPrintableAscii(items[0]);
      ItemsPrintable(items[1..]);
    }
  }

  lemma {:induction false} EntriesPrintable(entries: seq<(string, PyValue)>)
    ensures DumpsEntries(entries).Ok? ==> PrintableAscii(DumpsEntries(entries).value)
    decreases EntriesSize(entries)
  {
    if entries != [] {
      assert EntrySize(entries[0]) == Size(entries[0].1);
      DumpsIsPrintableAscii(entries[0].1);
      EscapeStringPrintable(entries[0].0);
      EntriesPrintable(entries[1..]);
    }
  }

  // The decoder undoes the encoder.

  lemma HexDigitValue(d: nat)
    requires d < 16
    ensures HexValue(HexDigit(d)) == Some(d)
  {
  }

  lemma Hex4RoundTrip(n: nat, rest: string)
    requires n < 0x10000
    ensures ParseHex4(Hex4(n) + rest) == Some(n)
  {
    var t := Hex4(n) + rest;
    var q1 := n / 16;
    var q2 := q1 / 16;
    var q3 := q2 / 16;
    assert n == q1 * 16 + n % 16;
    assert q1 == q2 * 16 + q1 % 16;
    assert q2 == q3 * 16 + q2 % 16;
    assert q3 < 16;
    HexDigitValue(q3);
    HexDigitValue(q2 % 16);
    HexDigitValue(q1 % 16);
    HexDigitValue(n % 16);
    assert t[0] == HexDigit(q3) && t[1] == HexDigit(q2 % 16) && t[2] == HexDigit(q1 % 16) && t[3] == HexDigit(n % 16);
  }

  lemma BmpEscapeDecodes(n: nat, t: string)
    requires n < 0x10000 && !(0xD800 <= n < 0xE000)
    ensures DecodeEscape("u" + Hex4(n) + t) == Some((n as char, t))
  {
    var u := ("u" + Hex4(n) + t)[1..];
    assert u == Hex4(n) + t;
    Hex4RoundTrip(n, t);
    assert u[4..] == t;
  }

  lemma SurrogateSplit(v: nat)
    requires v < 0x100000
    ensures 0xD800 <= 0xD800 + v / 0x400 < 0xDC00 && 0xDC00 <= 0xDC00 + v % 0x400 < 0xE000
    ensures 0x10000 + v / 0x400 * 0x400 + v % 0x400 == 0x10000 + v
  {
  }

  lemma SurrogatePairDecodes(hi: nat, lo: nat, t: string)
    requires 0xD800 <= hi < 0xDC00 && 0xDC00 <= lo < 0xE000
    ensures DecodeUnicodeEscape(Hex4(hi) + "\\u" + Hex4(lo) + t)
         == Some(((0x10000 + (hi - 0xD800) * 0x400 + (lo - 0xDC00)) as char, t))
  {
    var u := Hex4(hi) + "\\u" + Hex4(lo) + t;
    assert u == Hex4(hi) + ("\\u" + Hex4(lo) + t);
    Hex4RoundTrip(hi, "\\u" + Hex4(lo) + t);
    assert u[4] == '\\' && u[5] == 'u';
    assert u[6..] == Hex4(lo) + t;
    Hex4RoundTrip(lo, t);
    assert u[6..][4..] == t;
    assert u[10..] == t;
  }

  lemma ShortEscapeDecodes(x: char, c: char, t: string)
    requires || ((x == '"' || x == '\\') && c == x)
             || (x == 'n' && c == '\n') || (x == 'r' && c == '\r') || (x == 't' && c == '\t')
             || (x == 'b' && c as int == 8) || (x == 'f' && c as int == 12)
    ensures DecodeUnit(['\\', x] + t) == Some((c, t))
  {
    assert (['\\', x] + t)[1..] == [x] + t;
    assert ([x] + t)[1..] == t;
  }

  /** The characters with a two-character escape. */
  predicate HasShortEscape(c: char)
  {
    c == '"' || c == '\\' || c == '\n' || c == '\r' || c == '\t' || c as int == 8 || c as int == 12
  }

  lemma ShortEscapeCharDecodes(c: char, t: string)
    requires HasShortEscape(c)
    ensures (EscapeChar(c) + t)[0] != '"'
    ensures DecodeUnit(EscapeChar(c) + t) == Some((c, t))
  {
    if c == '"' {
      ShortEscapeDecodes('"', c, t);
    } else if c == '\\' {
      ShortEscapeDecodes('\\', c, t);
    } else if c == '\n' {
      ShortEscapeDecodes('n', c, t);
    } else if c == '\r' {
      ShortEscapeDecodes('r', c, t);
    } else if c == '\t' {
      ShortEscapeDecodes('t', c, t);
    } else if c as int == 8 {
      ShortEscapeDecodes('b', c, t);
    } else {
      ShortEscapeDecodes('f', c, t);
    }
  }

  lemma BmpCharDecodes(c: char, t: string)
    requires !HasShortEscape(c) && !(' ' <= c <= '~') && c as int < 0x10000
    ensures (EscapeChar(c) + t)[0] != '"'
    ensures DecodeUnit(EscapeChar(c) + t) == Some((c, t))
  {
    var e := EscapeChar(c);
    assert e == "\\u" + Hex4(c as int);
    assert (e + t)[1..] == "u" + Hex4(c as int) + t;
    BmpEscapeDecodes(c as int, t);
  }

  lemma UnicodeEscapeUnit(x: string)
    ensures DecodeUnit("\\u" + x) == DecodeUnicodeEscape(x)
  {
    assert ("\\u" + x)[1..][1..] == x;
  }

  lemma AstralCharDecodes(c: char, t: string)
    requires c as int >= 0x10000
    ensures (EscapeChar(c) + t)[0] != '"'
    ensures DecodeUnit(EscapeChar(c) + t) == Some((c, t))
  {
    var v := c as int - 0x10000;
    var hi, lo := 0xD800 + v / 0x400, 0xDC00 + v % 0x400;
    var x := Hex4(hi) + "\\u" + Hex4(lo) + t;
    assert EscapeChar(c) + t == "\\u" + x;
    SurrogateSplit(v);
    SurrogatePairDecodes(hi, lo, t);
    UnicodeEscapeUnit(x);
    var code := 0x10000 + (hi - 0xD800) * 0x400 + (lo - 0xDC00);
    assert code == c as int;
  }

  /** The escape of one character, with anything after it, decodes to that character. */
  lemma EscapeCharDecodes(c: char, t: string)
    ensures (EscapeChar(c) + t)[0] != '"'
    ensures DecodeUnit(EscapeChar(c) + t) == Some((c, t))
  {
    if HasShortEscape(c) {
      ShortEscapeCharDecodes(c, t);
    } else if ' ' <= c <= '~' {
      assert EscapeChar(c) == [c];
      assert ([c] + t)[1..] == t;
    } else if c as int < 0x10000 {
      BmpCharDecodes(c, t);
    } else {
      AstralCharDecodes(c, t);
    }
  }

  lemma {:induction false} EscapeStringDecodes(s: string, rest: string)
    ensures DecodeBody(EscapeString(s) + "\"" + rest) == Some((s, rest))
  {
    if s == [] {
      assert EscapeString(s) + "\"" + rest == "\"" + rest;
    } else {
      var t := EscapeString(s[1..]) + "\"" + rest;
      EscapeStringDecodes(s[1..], rest);
      EscapeCharDecodes(s[0], t);
      assert EscapeString(s) + "\"" + rest == EscapeChar(s[0]) + t;
      assert [s[0]] + s[1..] == s;
    }
  }

  /** A quoted string, whatever follows it, reads back as the same string. */
  lemma QuoteStringParses(s: string, rest: string)
    ensures ParseString(QuoteString(s) + rest) == Some((s, rest))
  {
    EscapeStringDecodes(s, rest);
    assert (QuoteString(s) + rest)[1..] == EscapeString(s) + "\"" + rest;
  }

  /** One member `"key": "value"` as the encoder writes it. */
  function MemberText(member: (string, string)): string
  {
    QuoteString(member.0) + ": " + QuoteString(member.1)
  }

  function JoinMembers(members: seq<(string, string)>): string
    requires members != []
  {
    if |members| == 1 then MemberText(members[0]) else MemberText(members[0]) + ", " + JoinMembers(members[1..])
  }

  lemma {:induction false} StringEntriesDump(members: seq<(string, string)>)
    requires members != []
    ensures DumpsEntries(StringDict(members).entries) == Ok(JoinMembers(members))
  {
    var entries := StringDict(members).entries;
    assert Dumps(entries[0].1) == Ok(QuoteString(members[0].1));
    if |members| > 1 {
      assert entries[1..] == StringDict(members[1..]).entries;
      StringEntriesDump(members[1..]);
    }
  }

  lemma MemberParses(member: (string, string), r2: string)
    ensures ParseMember(MemberText(member) + r2) == Some((member, r2))
  {
    var r1 := ": " + QuoteString(member.1) + r2;
    assert MemberText(member) + r2 == QuoteString(member.0) + r1;
    QuoteStringParses(member.0, r1);
    assert r1[..2] == ": " && r1[2..] == QuoteString(member.1) + r2;
    QuoteStringParses(member.1, r2);
  }

  lemma LastMemberParses(member: (string, string))
    ensures ParseMembers(MemberText(member) + "}") == Some([member])
  {
    MemberParses(member, "}");
  }

  lemma NextMemberParses(member: (string, string), tail: string, rest: seq<(string, string)>)
    requires ParseMembers(tail) == Some(rest)
    ensures ParseMembers(MemberText(member) + ", " + tail) == Some([member] + rest)
  {
    var r2 := ", " + tail;
    assert MemberText(member) + ", " + tail == MemberText(member) + r2;
    MemberParses(member, r2);
    assert r2 != "}" && r2[..2] == ", " && r2[2..] == tail;
  }

  lemma {:induction false} JoinMembersParses(members: seq<(string, string)>)
    requires members != []
    ensures ParseMembers(JoinMembers(members) + "}") == Some(members)
  {
    if |members| == 1 {
      LastMemberParses(members[0]);
      assert [members[0]] == members;
    } else {
      var tail := JoinMembers(members[1..]) + "}";
      JoinMembersParses(members[1..]);
      NextMemberParses(members[0], tail, members[1..]);
      assert JoinMembers(members) + "}" == MemberText(members[0]) + ", " + tail;
      assert [members[0]] + members[1..] == members;
    }
  }

  /**
   * A dict whose values are strings encodes to text that decodes back to the same
   * members in the same order.
   */
  lemma StringObjectRoundTrip(members: seq<(string, string)>)
    ensures Dumps(StringDict(members)).Ok?
    ensures ParseStringObject(Dumps(StringDict(members)).value) == Some(members)
  {
    if members != [] {
      StringEntriesDump(members);
      JoinMembersParses(members);
      var text := Dumps(StringDict(members)).value;
      assert text[0] == '{' && text[1..] == JoinMembers(members) + "}";
      assert text != "{}";
    }
  }
}
