/** Canonical JSON (RFC 8785 style), after packages/audit/src/index.ts. */
module Json {
  import opened Wrappers

  /** An object member, or any other value filed under a key. */
  datatype Entry<+T> = Entry(key: string, val: T)

  /** A JavaScript value as it reaches `canonicalize`; `Undefined` is what JSON drops or reads as null.
      Objects list their members in insertion order. */
  datatype Value =
    | Undefined
    | Null
    | Bool(b: bool)
    | Num(n: int)
    | Str(s: string)
    | Arr(items: seq<Value>)
    | Obj(members: seq<Entry<Value>>)

  // ---------------------------------------------------------------------------------------------
  // Scalars
  // ---------------------------------------------------------------------------------------------

  function Digit(d: nat): char
    requires d < 10
  {
    ('0' as int + d) as char
  }

  function Decimal(n: nat): (t: string)
    ensures t != ""
    ensures forall i :: 0 <= i < |t| ==> IsDigit(t[i])
  {
    if n < 10 then [Digit(n)] else Decimal(n / 10) + [Digit(n % 10)]
  }

  function Number(n: int): string {
    if n < 0 then "-" + Decimal(-n) else Decimal(n)
  }

  predicate IsDigit(c: char) { '0' <= c <= '9' }

  function Hex(d: nat): char
    requires d < 16
  {
    if d < 10 then Digit(d) else ('a' as int + d - 10) as char
  }

  /** Section 3.2.2.2 of RFC 8785: short escapes where JSON has them, `\u00xx` for the other control characters. */
  function EscapeChar(c: char): string {
    if c == '"' then "\\\""
    else if c == '\\' then "\\\\"
    else if c as int == 8 then "\\b"
    else if c as int == 9 then "\\t"
    else if c as int == 10 then "\\n"
    else if c as int == 12 then "\\f"
    else if c as int == 13 then "\\r"
    else if c as int < 32 then "\\u00" + [Hex(c as int / 16), Hex(c as int % 16)]
    else [c]
  }

  function Escape(s: string): string {
    if s == "" then "" else EscapeChar(s[0]) + Escape(s[1..])
  }

  function Quote(s: string): string { "\"" + Escape(s) + "\"" }

  // ---------------------------------------------------------------------------------------------
  // Key order: UTF-16 code units, as JavaScript compares strings (section 3.2.3 of RFC 8785)
  // ---------------------------------------------------------------------------------------------

  function Units(c: char): seq<nat> {
    var v := c as int;
    if v < 0x1_0000 then [v]
    else [0xD800 + (v - 0x1_0000) / 0x400, 0xDC00 + (v - 0x1_0000) % 0x400]
  }

  function Utf16(s: string): seq<nat> {
    if s == "" then [] else Units(s[0]) + Utf16(s[1..])
  }

  predicate UnitsLess(a: seq<nat>, b: seq<nat>) {
    b != [] && (a == [] || a[0] < b[0] || (a[0] == b[0] && UnitsLess(a[1..], b[1..])))
  }

  predicate KeyLess(a: string, b: string) { UnitsLess(Utf16(a), Utf16(b)) }

  function Insert<T>(e: Entry<T>, sorted: seq<Entry<T>>): seq<Entry<T>> {
    if sorted == [] || !KeyLess(sorted[0].key, e.key) then [e] + sorted
    else [sorted[0]] + Insert(e, sorted[1..])
  }

  /** The stable sort by key. */
  function SortByKey<T>(es: seq<Entry<T>>): seq<Entry<T>> {
    if es == [] then [] else Insert(es[0], SortByKey(es[1..]))
  }

  // ---------------------------------------------------------------------------------------------
  // The canonical text
  // ---------------------------------------------------------------------------------------------

  function Join(parts: seq<string>): string {
    if parts == [] then "" else if |parts| == 1 then parts[0] else parts[0] + "," + Join(parts[1..])
  }

  function MemberText(e: Entry<string>): string { Quote(e.key) + ":" + e.val }

  function MemberTexts(es: seq<Entry<string>>): seq<string> {
    if es == [] then [] else [MemberText(es[0])] + MemberTexts(es[1..])
  }

  /** The text of a value; a top-level `Undefined`, which the program refuses, is left to `Canonicalize`. */
  function Text(v: Value): string
    decreases v, 0
  {
    match v
    case Undefined => ""
    case Null => "null"
    case Bool(b) => if b then "true" else "false"
    case Num(n) => Number(n)
    case Str(s) => Quote(s)
    case Arr(items) => "[" + Join(ItemTexts(items)) + "]"
    case Obj(members) => "{" + Join(MemberTexts(SortByKey(DefinedTexts(members)))) + "}"
  }

  function ItemTexts(items: seq<Value>): seq<string>
    decreases items, 0
  {
    if items == [] then []
    else [if items[0] == Undefined then "null" else Text(items[0])] + ItemTexts(items[1..])
  }

  function DefinedTexts(members: seq<Entry<Value>>): seq<Entry<string>>
    decreases members, 0
  {
    if members == [] then []
    else if members[0].val == Undefined then DefinedTexts(members[1..])
    else [Entry(members[0].key, Text(members[0].val))] + DefinedTexts(members[1..])
  }

  /** `None` where the program throws. */
  function Canonicalize(v: Value): Option<string> {
    if v == Undefined then None else Some(Text(v))
  }

  // ---------------------------------------------------------------------------------------------
  // Normal form: what a value means as JSON
  // ---------------------------------------------------------------------------------------------

  /** Undefined members dropped, undefined elements read as null, keys sorted, throughout. */
  function Normal(v: Value): Value
    decreases v, 0
  {
    match v
    case Arr(items) => Arr(NormalItems(items))
    case Obj(members) => Obj(SortByKey(NormalMembers(members)))
    case _ => v
  }

  function NormalItems(items: seq<Value>): seq<Value>
    decreases items, 0
  {
    if items == [] then [] else [if items[0] == Undefined then Null else Normal(items[0])] + NormalItems(items[1..])
  }

  function NormalMembers(members: seq<Entry<Value>>): seq<Entry<Value>>
    decreases members, 0
  {
    if members == [] then []
    else if members[0].val == Undefined then NormalMembers(members[1..])
    else [Entry(members[0].key, Normal(members[0].val))] + NormalMembers(members[1..])
  }

  // ---------------------------------------------------------------------------------------------
  // A decoder
  // ---------------------------------------------------------------------------------------------

  function HexValue(c: char): Option<nat> {
    if IsDigit(c) then Some(c as int - '0' as int)
    else if 'a' <= c <= 'f' then Some(c as int - 'a' as int + 10)
    else None
  }

  /** The character after a backslash that stands for a single character. */
  function ShortEscape(c: char): Option<char> {
    if c == '"' || c == '\\' then Some(c)
    else if c == 'b' then Some(8 as char)
    else if c == 't' then Some(9 as char)
    else if c == 'n' then Some(10 as char)
    else if c == 'f' then Some(12 as char)
    else if c == 'r' then Some(13 as char)
    else None
  }

  /** Reads string content up to and including the closing quote. */
  function ReadString(s: string): (r: Option<(string, string)>)
    ensures r.Some? ==> |r.value.1| < |s|
  {
    if s == "" then None
    else if s[0] == '"' then Some(("", s[1..]))
    else if s[0] != '\\' then Cons(s[0], ReadString(s[1..]))
    else if |s| >= 2 && ShortEscape(s[1]).Some? then Cons(ShortEscape(s[1]).value, ReadString(s[2..]))
    else if |s| >= 6 && s[1..4] == "u00" && HexValue(s[4]).Some? && HexValue(s[5]).Some? then
      Cons((16 * HexValue(s[4]).value + HexValue(s[5]).value) as char, ReadString(s[6..]))
    else None
  }

  function Cons(c: char, r: Option<(string, string)>): Option<(string, string)> {
    match r
    case None => None
    case Some((text, rest)) => Some(([c] + text, rest))
  }

  /** Reads the longest run of digits on top of the number read so far. */
  function ReadDigits(s: string, sofar: nat): (r: (nat, string))
    ensures |r.1| <= |s|
    decreases |s|
  {
    if s != "" && IsDigit(s[0]) then ReadDigits(s[1..], 10 * sofar + (s[0] as int - '0' as int)) else (sofar, s)
  }

  function ReadValue(s: string): (r: Option<(Value, string)>)
    ensures r.Some? ==> |r.value.1| < |s|
    decreases |s|, 0
  {
    if s == "" then None
    else if s[0] == 'n' then if "null" <= s then Some((Null, s[4..])) else None
    else if s[0] == 't' then if "true" <= s then Some((Bool(true), s[4..])) else None
    else if s[0] == 'f' then if "false" <= s then Some((Bool(false), s[5..])) else None
    else if s[0] == '"' then
      match ReadString(s[1..]) {
        case None => None
        case Some((text, rest)) => Some((Str(text), rest))
      }
    else if IsDigit(s[0]) then
      var (n, rest) := ReadDigits(s[1..], s[0] as int - '0' as int);
      Some((Num(n), rest))
    else if s[0] == '-' then
      var (n, rest) := ReadDigits(s[1..], 0);
      Some((Num(0 - n), rest))
    else if s[0] == '[' then
      if |s| >= 2 && s[1] == ']' then Some((Arr([]), s[2..]))
      else match ReadItems(s[1..]) {
        case None => None
        case Some((items, rest)) => Some((Arr(items), rest))
      }
    else if s[0] == '{' then
      if |s| >= 2 && s[1] == '}' then Some((Obj([]), s[2..]))
      else match ReadMembers(s[1..]) {
        case None => None
        case Some((members, rest)) => Some((Obj(members), rest))
      }
    else None
  }

  /** Reads one or more elements up to and including the closing bracket. */
  function ReadItems(s: string): (r: Option<(seq<Value>, string)>)
    ensures r.Some? ==> |r.value.1| < |s|
    decreases |s|, 1
  {
    match ReadValue(s)
    case None => None
    case Some((v, rest)) =>
      if rest == "" then None
      else if rest[0] == ']' then Some(([v], rest[1..]))
      else if rest[0] == ',' then
        match ReadItems(rest[1..]) {
          case None => None
          case Some((vs, rest')) => Some(([v] + vs, rest'))
        }
      else None
  }

  /** Reads one member, `"key":value`. */
  function ReadMember(s: string): (r: Option<(Entry<Value>, string)>)
    ensures r.Some? ==> |r.value.1| < |s|
    decreases |s|, 1
  {
    if s == "" || s[0] != '"' then None
    else match ReadString(s[1..])
      case None => None
      case Some((key, rest)) =>
        if rest == "" || rest[0] != ':' then None
        else match ReadValue(rest[1..])
          case None => None
          case Some((v, rest')) => Some((Entry(key, v), rest'))
  }

  function ReadMembers(s: string): (r: Option<(seq<Entry<Value>>, string)>)
    ensures r.Some? ==> |r.value.1| < |s|
    decreases |s|, 2
  {
    match ReadMember(s)
    case None => None
    case Some((e, rest)) =>
      if rest == "" then None
      else if rest[0] == '}' then Some(([e], rest[1..]))
      else if rest[0] == ',' then
        match ReadMembers(rest[1..]) {
          case None => None
          case Some((es, rest')) => Some(([e] + es, rest'))
        }
      else None
  }

  /** A whole text read as one value. */
  function Decode(s: string): Option<Value> {
    match ReadValue(s)
    case Some((v, "")) => Some(v)
    case _ => None
  }
}
