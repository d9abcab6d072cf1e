/**
 * The dynamically typed Python values that cross the plugin boundary (the
 * argument bag of `execute`, its result, the entries of `describe()` and of the
 * configuration), their truthiness, `str()` / `repr()`, and the exceptions a
 * plugin can raise.
 */
module Py {

  import opened Wrappers
  import opened Text

  /** A Python object as the host sees it. `Dict` keeps the keys and values of a
      `dict` but not its insertion order. */
  datatype Value =
    | Null
    | Bool(b: bool)
    | Int(i: int)
    | Str(s: string)
    | List(items: seq<Value>)
    | Dict(entries: map<string, Value>)

  /** The free-form argument bag `Dict[str, Any]` passed to `execute`. */
  type Args = map<string, Value>

  /** The exceptions the host distinguishes. `Raised` is any other subclass of
      `Exception`, by name. */
  datatype Exception =
    | KeyError(key: string)
    | ValueError(msg: string)
    | TypeError(msg: string)
    | NotImplementedError(msg: string)
    | ValidationError(msg: string)
    | Raised(kind: string, msg: string)

  /** Python's `bool(v)`. */
  predicate Truthy(v: Value) {
    match v
    case Null => false
    case Bool(b) => b
    case Int(i) => i != 0
    case Str(s) => s != ""
    case List(xs) => xs != []
    case Dict(m) => m != map[]
  }

  /** `d.get(key, default)` on a dict. */
  function Get(d: map<string, Value>, key: string, default: Value): (v: Value)
    ensures key in d ==> v == d[key]
    ensures key !in d ==> v == default
  {
    if key in d then d[key] else default
  }

  /** Lower-case hexadecimal digit. */
  function HexDigit(d: int): (c: char)
    requires 0 <= d < 16
  {
    if d < 10 then DigitChar(d) else ('a' as int + d - 10) as char
  }

  /** Characters of the Latin-1 range that Python's `repr` escapes as `\xhh`
      (C0 and C1 controls, DEL, no-break space and soft hyphen); `\t`, `\n`
      and `\r` have their own escapes. Characters above U+00FF are kept. */
  predicate HexEscaped(c: char) {
    var n := c as int;
    n < 0x20 || (0x7f <= n <= 0xa0) || n == 0xad
  }

  /** The quote `repr` puts around a string: `"` when the text holds `'` but no
      `"`, otherwise `'`. */
  function QuoteFor(s: string): (q: char)
    ensures q == '"' <==> ('\'' in s && '"' !in s)
    ensures q == '\'' || q == '"'
  {
    if '\'' in s && '"' !in s then '"' else '\''
  }

  /** One character inside a `repr` literal delimited by `q`. */
  function EscapeChar(c: char, q: char): string {
    if c == q || c == '\\' then ['\\', c]
    else if c == '\t' then "\\t"
    else if c == '\n' then "\\n"
    else if c == '\r' then "\\r"
    else if HexEscaped(c) then "\\x" + [HexDigit(c as int / 16), HexDigit(c as int % 16)]
    else [c]
  }

  function Escaped(s: string, q: char): string {
    if s == [] then "" else EscapeChar(s[0], q) + Escaped(s[1..], q)
  }

  /** `repr(s)` of a Python string. */
  function ReprString(s: string): string {
    var q := QuoteFor(s);
    [q] + Escaped(s, q) + [q]
  }

  /** A character `repr` copies unchanged into a single-quoted literal. */
  predicate PlainChar(c: char) {
    c != '\'' && c != '\\' && c != '\t' && c != '\n' && c != '\r' && !HexEscaped(c)
  }

  lemma {:induction false} EscapedPlain(s: string)
    requires forall i :: 0 <= i < |s| ==> PlainChar(s[i])
    ensures Escaped(s, '\'') == s
  {
    if s != [] {
      EscapedPlain(s[1..]);
      assert s == [s[0]] + s[1..];
    }
  }

  /** The repr of a string without quotes, backslashes or control characters is
      the text itself between single quotes. */
  lemma ReprPlainString(s: string)
    requires forall i :: 0 <= i < |s| ==> PlainChar(s[i])
    ensures ReprString(s) == "'" + s + "'"
  {
    EscapedPlain(s);
  }

  /** Python's `repr(v)`. A dict is rendered as `{...}`: the model does not keep
      the insertion order its entries are printed in. */
  function Repr(v: Value): string
    decreases v
  {
    match v
    case Null => "None"
    case Bool(b) => if b then "True" else "False"
    case Int(i) => Decimal(i)
    case Str(s) => ReprString(s)
    case List(items) =>
      "[" + Join(", ", seq(|items|, k requires 0 <= k < |items| => Repr(items[k]))) + "]"
    case Dict(_) => "{...}"
  }

  /** Python's `str(v)`, which is also what an f-string interpolates. */
  function ToStr(v: Value): string {
    if v.Str? then v.s else Repr(v)
  }

  /** Python's `str(e)` for a raised exception. A `KeyError` shows the repr of its
      key, so `str(KeyError("x"))` is `'x'` with the quotes. */
  function ExceptionStr(e: Exception): string {
    match e
    case KeyError(k) => ReprString(k)
    case ValueError(m) => m
    case TypeError(m) => m
    case NotImplementedError(m) => m
    case ValidationError(m) => m
    case Raised(_, m) => m
  }

  /** The detail of a `KeyError` for a plain command name is the name in single quotes. */
  lemma KeyErrorDetail(key: string)
    requires forall i :: 0 <= i < |key| ==> PlainChar(key[i])
    ensures ExceptionStr(KeyError(key)) == "'" + key + "'"
  {
    ReprPlainString(key);
  }
}
