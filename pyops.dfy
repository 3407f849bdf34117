/** Python semantics that the decompiler relies on: negative list indexes,
    clamped slices, `hex`, `"%X"`, decimal formatting, and the exceptions the
    pipeline can raise. */
module PyOps {

  datatype Option<+T> = None | Some(value: T)

  /** The exceptions the pipeline raises.  `Diverged` stands for a loop that the
      source would run forever (see the fuel parameters). */
  datatype PyError =
    | DecompilerError(msg: string)
    | IndexError
    | KeyError
    | TypeError
    | ValueError
    | AttributeError
    | StructError
    | Diverged

  datatype Outcome<+T> = Ok(value: T) | Raise(error: PyError) {
    predicate IsFailure() { Raise? }
    function PropagateFailure<U>(): Outcome<U>
      requires Raise?
    {
      Raise(error)
    }
    function Extract(): T
      requires Ok?
    {
      value
    }
  }

  /** What `str(e)` gives for an exception; built-in messages are left abstract. */
  function ErrorText(e: PyError): string
  {
    match e
    case DecompilerError(m) => m
    case IndexError => "IndexError"
    case KeyError => "KeyError"
    case TypeError => "TypeError"
    case ValueError => "ValueError"
    case AttributeError => "AttributeError"
    case StructError => "StructError"
    case Diverged => "Diverged"
  }

  /** `s[k]` in Python: a negative `k` counts from the end. */
  function At<T>(s: seq<T>, k: int): (r: Option<T>)
    ensures r.Some? ==> r.value in s
    ensures r.Some? <==> -|s| <= k < |s|
  {
    if 0 <= k < |s| then Some(s[k])
    else if -|s| <= k < 0 then Some(s[|s| + k])
    else None
  }

  function Clamp(k: int, n: nat): (r: nat)
    ensures r <= n
  {
    if k < 0 then (if k + n < 0 then 0 else k + n) else if k > n then n else k
  }

  /** `s[a:b]` in Python (step 1). */
  function Slice<T>(s: seq<T>, a: int, b: int): (r: seq<T>)
    ensures |r| <= |s|
    ensures a >= 1 && s != [] ==> |r| < |s|
    ensures 0 <= a <= b <= |s| ==> r == s[a..b]
  {
    var lo := Clamp(a, |s|);
    var hi := Clamp(b, |s|);
    if lo < hi then s[lo..hi] else []
  }

  function HexDigit(d: nat, upper: bool): char
    requires d < 16
  {
    if d < 10 then ('0' as int + d) as char
    else if upper then ('A' as int + d - 10) as char
    else ('a' as int + d - 10) as char
  }

  /** Hexadecimal digits of `n`, most significant first, no leading zeros. */
  function HexDigits(n: nat, upper: bool): (r: string)
    decreases n
  {
    if n < 16 then [HexDigit(n, upper)] else HexDigits(n / 16, upper) + [HexDigit(n % 16, upper)]
  }

  /** Python `hex(n)`. */
  function Hex(n: int): string
  {
    if n < 0 then "-0x" + HexDigits(-n, false) else "0x" + HexDigits(n, false)
  }

  /** Python `"%X" % n`. */
  function UpperHex(n: int): string
  {
    if n < 0 then "-" + HexDigits(-n, true) else HexDigits(n, true)
  }

  function DigitValue(c: char): int
  {
    if '0' <= c <= '9' then c as int - '0' as int
    else if 'a' <= c <= 'f' then c as int - 'a' as int + 10
    else if 'A' <= c <= 'F' then c as int - 'A' as int + 10
    else -1
  }

  /** Reads hexadecimal digits back (the inverse of HexDigits). */
  function ParseHexDigits(s: string): int
  {
    if s == [] then 0 else ParseHexDigits(s[..|s| - 1]) * 16 + DigitValue(s[|s| - 1])
  }

  /** Reads back what Hex or UpperHex printed. */
  function ParseHex(s: string): int
  {
    if |s| >= 3 && s[..3] == "-0x" then -ParseHexDigits(s[3..])
    else if |s| >= 2 && s[..2] == "0x" then ParseHexDigits(s[2..])
    else if |s| >= 1 && s[0] == '-' then -ParseHexDigits(s[1..])
    else ParseHexDigits(s)
  }

  lemma {:induction false} HexDigitsRoundTrip(n: nat, upper: bool)
    ensures |HexDigits(n, upper)| >= 1
    ensures HexDigits(n, upper)[0] != '-'
    ensures ParseHexDigits(HexDigits(n, upper)) == n
    decreases n
  {
    var s := HexDigits(n, upper);
    if n < 16 {
      assert s[..|s| - 1] == [];
    } else {
      HexDigitsRoundTrip(n / 16, upper);
      assert s[..|s| - 1] == HexDigits(n / 16, upper);
      assert s[|s| - 1] == HexDigit(n % 16, upper);
    }
  }

  /** `hex` can be read back: the rendering loses nothing. */
  lemma HexRoundTrip(n: int)
    ensures ParseHex(Hex(n)) == n
  {
    var m := if n < 0 then -n else n;
    HexDigitsRoundTrip(m, false);
    var s := Hex(n);
    if n < 0 {
      assert s[..3] == "-0x" && s[3..] == HexDigits(m, false);
    } else {
      assert s[..2] == "0x" && s[2..] == HexDigits(m, false);
      assert !(|s| >= 3 && s[..3] == "-0x") by { assert s[0] == '0'; }
    }
  }

  /** `"%X" % n` can be read back too, so distinct numbers give distinct texts. */
  lemma UpperHexRoundTrip(n: int)
    ensures ParseHex(UpperHex(n)) == n
  {
    var m := if n < 0 then -n else n;
    HexDigitsRoundTrip(m, true);
    var s := UpperHex(n);
    var d := HexDigits(m, true);
    if n < 0 {
      assert s == "-" + d && s[1..] == d;
      assert !(|s| >= 3 && s[..3] == "-0x") by {
        if |s| >= 3 { HexDigitNotX(m); assert s[2] == d[1]; }
      }
    } else {
      assert s == d;
      assert !(|s| >= 2 && s[..2] == "0x") by {
        if |s| >= 2 && s[0] == '0' { ZeroLeadsAlone(m); }
      }
    }
  }

  lemma {:induction false} HexDigitNotX(n: nat)
    ensures forall k :: 0 <= k < |HexDigits(n, true)| ==> HexDigits(n, true)[k] != 'x' && HexDigits(n, true)[k] != '-'
    decreases n
  {
    if n >= 16 { HexDigitNotX(n / 16); }
  }

  /** Only zero is written with a leading `0`, and then alone. */
  lemma {:induction false} ZeroLeadsAlone(n: nat)
    ensures HexDigits(n, true)[0] == '0' ==> n == 0
    decreases n
  {
    if n >= 16 {
      ZeroLeadsAlone(n / 16);
      assert HexDigits(n, true)[0] == HexDigits(n / 16, true)[0];
    }
  }

  lemma UpperHexInjective(a: int, b: int)
    requires UpperHex(a) == UpperHex(b)
    ensures a == b
  {
    UpperHexRoundTrip(a);
    UpperHexRoundTrip(b);
  }

  function DecimalDigits(n: nat): string
    decreases n
  {
    if n < 10 then [('0' as int + n) as char] else DecimalDigits(n / 10) + [('0' as int + n % 10) as char]
  }

  /** `str(n)` / `"{}".format(n)` for an integer. */
  function Decimal(n: int): string
  {
    if n < 0 then "-" + DecimalDigits(-n) else DecimalDigits(n)
  }

  /** `sep.join(parts)`; AstFacts.LinesOfJoin shows that splitting the
      text at newlines gives the parts back. */
  function Join(parts: seq<string>, sep: string): (r: string)
    ensures parts == [] ==> r == ""
  {
    if parts == [] then "" else if |parts| == 1 then parts[0] else Join(parts[..|parts| - 1], sep) + sep + parts[|parts| - 1]
  }
}
