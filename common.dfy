/** Values shared by the server and the client models: optional values, handler
    outcomes, and the few string operations that JavaScript's String methods
    perform in the modelled code (split, join, trim, digit tests). */
module Common {

  datatype Option<+T> = None | Some(value: T) {
    function GetOr(default: T): T {
      match this
      case Some(v) => v
      case None => default
    }
  }

  /** The JSON reply of an Express handler: `success: true` with its data, or
      `error: true` with the HTTP status and message it is sent with. */
  datatype Outcome<+T> = Success(data: T) | Failure(code: nat, message: string)

  /** Identifiers of stored documents (`mongoose.Types.ObjectId`). */
  type ObjectId = nat

  /** Milliseconds since the epoch, as `Date.now()` returns them. */
  type Time = nat

  // ---------------------------------------------------------------------------
  // String.prototype.split with a one-character separator, and Array.join

  /** `s.split(sep)`: the maximal separator-free pieces of `s`, in order. */
  function Split(s: string, sep: char): (parts: seq<string>)
    ensures |parts| >= 1
    ensures forall i :: 0 <= i < |parts| ==> sep !in parts[i]
    decreases |s|
  {
    if |s| == 0 then [""]
    else
      var rest := Split(s[1..], sep);
      if s[0] == sep then [""] + rest
      else [[s[0]] + rest[0]] + rest[1..]
  }

  /** `parts.join(sep)`, for any separator string (the empty one included). */
  function Join(parts: seq<string>, sep: string): string
    decreases |parts|
  {
    if |parts| == 0 then ""
    else if |parts| == 1 then parts[0]
    else parts[0] + sep + Join(parts[1..], sep)
  }

  /** Every occurrence of `c` in `s` replaced by `d`. */
  function Replace(s: string, c: char, d: char): (r: string)
    ensures |r| == |s|
    ensures forall i :: 0 <= i < |s| ==> r[i] == if s[i] == c then d else s[i]
  {
    seq(|s|, i requires 0 <= i < |s| => if s[i] == c then d else s[i])
  }

  lemma SplitWithoutSeparator(s: string, sep: char)
    requires sep !in s
    ensures Split(s, sep) == [s]
    decreases |s|
  {
    if |s| > 0 {
      SplitWithoutSeparator(s[1..], sep);
      assert [s[0]] + s[1..] == s;
    }
  }

  /** Splitting at one separator splits the two sides independently. */
  lemma {:induction false} SplitAtSeparator(a: string, b: string, sep: char)
    ensures Split(a + [sep] + b, sep) == Split(a, sep) + Split(b, sep)
    decreases |a|
  {
    var s := a + [sep] + b;
    if |a| == 0 {
      assert s[1..] == b;
    } else {
      assert s[1..] == a[1..] + [sep] + b;
      SplitAtSeparator(a[1..], b, sep);
    }
  }

  /** Joining the pieces with another one-character string puts `d` back
      where every separator was. */
  lemma {:induction false} JoinSplitIsReplace(s: string, sep: char, d: char)
    ensures Join(Split(s, sep), [d]) == Replace(s, sep, d)
    decreases |s|
  {
    if |s| > 0 {
      var rest := Split(s[1..], sep);
      JoinSplitIsReplace(s[1..], sep, d);
      assert Replace(s, sep, d) == [if s[0] == sep then d else s[0]] + Replace(s[1..], sep, d);
      if s[0] != sep {
        if |rest| > 1 {
          assert rest == [rest[0]] + rest[1..];
          assert Join(rest, [d]) == rest[0] + [d] + Join(rest[1..], [d]);
        }
      }
    }
  }

  /** `s.indexOf(c)`: the first position of `c`, or -1. */
  function IndexOf(s: string, c: char): (i: int)
    ensures -1 <= i < |s|
    ensures i >= 0 ==> s[i] == c
    ensures forall j :: 0 <= j < |s| && (i < 0 || j < i) ==> s[j] != c
    decreases |s|
  {
    if |s| == 0 then -1
    else if s[0] == c then 0
    else var k := IndexOf(s[1..], c); if k < 0 then -1 else k + 1
  }

  /** `s.lastIndexOf(c)`: the last position of `c`, or -1. */
  function LastIndexOf(s: string, c: char): (i: int)
    ensures -1 <= i < |s|
    ensures i >= 0 ==> s[i] == c
    ensures forall j :: i < j < |s| ==> s[j] != c
    decreases |s|
  {
    if |s| == 0 then -1
    else if s[|s| - 1] == c then |s| - 1
    else LastIndexOf(s[..|s| - 1], c)
  }

  /** The piece before the first separator is the text before `indexOf`. */
  lemma FirstPieceBeforeIndex(s: string, sep: char)
    ensures var i := IndexOf(s, sep);
      Split(s, sep)[0] == if i < 0 then s else s[..i]
    ensures var i := IndexOf(s, sep);
      i >= 0 ==> Split(s, sep) == [s[..i]] + Split(s[i + 1..], sep)
  {
    var i := IndexOf(s, sep);
    if i < 0 {
      SplitWithoutSeparator(s, sep);
    } else {
      assert s == s[..i] + [sep] + s[i + 1..];
      SplitAtSeparator(s[..i], s[i + 1..], sep);
      SplitWithoutSeparator(s[..i], sep);
    }
  }

  /** The piece after the last separator is the text after `lastIndexOf`, and
      the pieces before it are those of the text before the last separator. */
  lemma LastPieceAfterIndex(s: string, sep: char)
    ensures var i := LastIndexOf(s, sep); var parts := Split(s, sep);
      parts[|parts| - 1] == s[i + 1..]
    ensures var i := LastIndexOf(s, sep); var parts := Split(s, sep);
      i >= 0 ==> parts[..|parts| - 1] == Split(s[..i], sep)
  {
    var i := LastIndexOf(s, sep);
    if i < 0 {
      SplitWithoutSeparator(s, sep);
      assert s[i + 1..] == s;
    } else {
      var a, b := s[..i], s[i + 1..];
      assert s == a + [sep] + b;
      assert sep !in b by {
        forall k | 0 <= k < |b| ensures b[k] != sep {
          assert b[k] == s[i + 1 + k];
        }
      }
      SplitAtSeparator(a, b, sep);
      SplitWithoutSeparator(b, sep);
      var parts := Split(s, sep);
      assert parts == Split(a, sep) + [b];
      assert parts[..|parts| - 1] == Split(a, sep);
    }
  }

  // ---------------------------------------------------------------------------
  // Characters

  /** `\d` in a JavaScript regular expression: an ASCII decimal digit. */
  predicate IsDigit(c: char) {
    '0' <= c <= '9'
  }

  predicate AllDigits(s: string) {
    forall i :: 0 <= i < |s| ==> IsDigit(s[i])
  }

  /** The characters `String.prototype.trim` removes (WhiteSpace and
      LineTerminator of the ECMAScript grammar). */
  predicate IsJsSpace(c: char) {
    c == ' ' || c == '\t' || c == '\n' || c == '\r' || c == '\U{000B}' || c == '\U{000C}'
    || c == '\U{00A0}' || c == '\U{1680}' || ('\U{2000}' <= c <= '\U{200A}')
    || c == '\U{2028}' || c == '\U{2029}' || c == '\U{202F}' || c == '\U{205F}'
    || c == '\U{3000}' || c == '\U{FEFF}'
  }

  /** `!s.trim()`: nothing but white space is left. */
  predicate IsBlank(s: string) {
    forall i :: 0 <= i < |s| ==> IsJsSpace(s[i])
  }

  /** Decimal value of a string of digits. */
  function DecimalValue(s: string): (n: nat)
    requires AllDigits(s)
    decreases |s|
  {
    if |s| == 0 then 0
    else DecimalValue(s[..|s| - 1]) * 10 + (s[|s| - 1] - '0') as nat
  }

  // ---------------------------------------------------------------------------
  // Hexadecimal numerals (the text form of an ObjectId)

  function HexDigit(d: nat): (c: char)
    requires d < 16
  {
    if d < 10 then ('0' as int + d) as char else ('a' as int + d - 10) as char
  }

  /** The lower-case hexadecimal numeral of `n`, without leading zeros. */
  function HexNumeral(n: nat): (s: string)
    ensures |s| >= 1
    decreases n
  {
    if n < 16 then [HexDigit(n)] else HexNumeral(n / 16) + [HexDigit(n % 16)]
  }

  lemma HexNumeralLength(n: nat)
    ensures n >= 16 <==> |HexNumeral(n)| >= 2
  {
  }

  /** Different ObjectIds have different text forms. */
  lemma {:induction false} HexNumeralInjective(a: nat, b: nat)
    requires HexNumeral(a) == HexNumeral(b)
    ensures a == b
    decreases a
  {
    HexNumeralLength(a);
    HexNumeralLength(b);
    var s := HexNumeral(a);
    if a >= 16 {
      assert HexNumeral(a / 16) == s[..|s| - 1] == HexNumeral(b / 16);
      assert HexDigit(a % 16) == s[|s| - 1] == HexDigit(b % 16);
      HexNumeralInjective(a / 16, b / 16);
    }
  }
}
