/**
 * The java.lang text operations the sample agent's command loop and property
 * handling rely on: String.trim(), String.split(" ") and Integer.parseInt in
 * radix 10, with Integer.toString as the partner of parseInt.
 */
module JavaText {
  import opened Wrappers

  // ---------------------------------------------------------------------------
  // String.trim()
  // ---------------------------------------------------------------------------

  /** String.trim() removes every character whose code is at most U+0020. */
  predicate IsTrimmable(c: char) {
    c <= ' '
  }

  predicate AllTrimmable(s: string) {
    forall i :: 0 <= i < |s| ==> IsTrimmable(s[i])
  }

  /** Drops the leading trimmable characters: what is left is a suffix that does not start with one. */
  function TrimStart(s: string): (r: string)
    ensures |r| <= |s| && r == s[|s| - |r|..]
    ensures AllTrimmable(s[..|s| - |r|])
    ensures r == [] || !IsTrimmable(r[0])
  {
    if |s| > 0 && IsTrimmable(s[0]) then
      var r := TrimStart(s[1..]);
      assert s[..|s| - |r|] == [s[0]] + s[1..][..|s| - 1 - |r|];
      r
    else
      s
  }

  /** Drops the trailing trimmable characters: what is left is a prefix that does not end with one. */
  function TrimEnd(s: string): (r: string)
    ensures |r| <= |s| && r == s[..|r|]
    ensures AllTrimmable(s[|r|..])
    ensures r == [] || !IsTrimmable(r[|r| - 1])
  {
    if |s| > 0 && IsTrimmable(s[|s| - 1]) then
      var r := TrimEnd(s[..|s| - 1]);
      assert s[|r|..] == s[..|s| - 1][|r|..] + [s[|s| - 1]];
      r
    else
      s
  }

  /** How many characters String.trim() removes at the front of `s`. */
  function LeadLength(s: string): nat {
    |s| - |TrimStart(s)|
  }

  /**
   * String.trim(): what is left of `s` once the leading and then the trailing
   * trimmable characters are dropped; it neither starts nor ends with a
   * trimmable character (TrimDecomposes says where it sits in `s`).
   */
  function Trim(s: string): (r: string)
    ensures |r| <= |s|
    ensures r == [] || (!IsTrimmable(r[0]) && !IsTrimmable(r[|r| - 1]))
  {
    TrimEnd(TrimStart(s))
  }

  /** Trimming twice is trimming once. */
  lemma TrimIdempotent(s: string)
    ensures Trim(Trim(s)) == Trim(s)
  {
    var r := Trim(s);
    assert TrimStart(r) == r;
    assert TrimEnd(r) == r;
  }

  /**
   * `s` is the removed prefix, all trimmable, then the trimmed text, then the
   * removed suffix, all trimmable.
   */
  lemma TrimDecomposes(s: string)
    ensures LeadLength(s) + |Trim(s)| <= |s|
    ensures s == s[..LeadLength(s)] + Trim(s) + s[LeadLength(s) + |Trim(s)|..]
    ensures AllTrimmable(s[..LeadLength(s)])
    ensures AllTrimmable(s[LeadLength(s) + |Trim(s)|..])
  {
    var t := TrimStart(s);
    var r := TrimEnd(t);
    assert |s| - |t| == LeadLength(s) && r == Trim(s);
    TrimmedParts(s, t, r);
  }

  /**
   * When `t` is `s` less a trimmable prefix and `r` is `t` less a trimmable
   * suffix, `s` is that prefix, `r` and the suffix put back together.
   */
  lemma TrimmedParts(s: string, t: string, r: string)
    requires |t| <= |s| && t == s[|s| - |t|..] && AllTrimmable(s[..|s| - |t|])
    requires |r| <= |t| && r == t[..|r|] && AllTrimmable(t[|r|..])
    ensures var k := |s| - |t|;
      && s == s[..k] + r + s[k + |r|..]
      && AllTrimmable(s[..k]) && AllTrimmable(s[k + |r|..])
  {
    var k := |s| - |t|;
    SuffixSlices(s, k, |r|);
    SliceThree(s, k, k + |r|);
  }

  /** Slicing the suffix from `k` is slicing `s` from `k` on. */
  lemma SuffixSlices<T>(s: seq<T>, k: nat, j: nat)
    requires k + j <= |s|
    ensures s[k..][..j] == s[k..k + j] && s[k..][j..] == s[k + j..]
  {
  }

  /** A sequence is its prefix, middle and suffix put back together. */
  lemma SliceThree<T>(s: seq<T>, i: nat, j: nat)
    requires i <= j <= |s|
    ensures s == s[..i] + s[i..j] + s[j..]
  {
    assert s == s[..i] + s[i..];
    assert s[i..] == s[i..j] + s[j..];
  }

  // ---------------------------------------------------------------------------
  // String.split(" ")
  // ---------------------------------------------------------------------------

  /** Index of the first space of `s`. */
  function FirstSpace(s: string): (i: nat)
    requires ' ' in s
    ensures i < |s| && s[i] == ' ' && ' ' !in s[..i]
  {
    if s[0] == ' ' then
      0
    else
      var j := FirstSpace(s[1..]);
      assert s[..j + 1] == [s[0]] + s[1..][..j];
      j + 1
  }

  /** The text between consecutive spaces, empty pieces included; a space-free string is one piece. */
  function Pieces(s: string): (ps: seq<string>)
    ensures |ps| >= 1
    ensures forall k :: 0 <= k < |ps| ==> ' ' !in ps[k]
    decreases |s|
  {
    if ' ' !in s then
      [s]
    else
      var i := FirstSpace(s);
      [s[..i]] + Pieces(s[i + 1..])
  }

  /** Joins pieces with single spaces: the inverse of Pieces. */
  function Join(ps: seq<string>): string
    requires |ps| >= 1
  {
    if |ps| == 1 then ps[0] else ps[0] + " " + Join(ps[1..])
  }

  /** Joining the pieces of `s` gives `s` back. */
  lemma {:induction false} JoinPieces(s: string)
    ensures Join(Pieces(s)) == s
    decreases |s|
  {
    if ' ' in s {
      var i := FirstSpace(s);
      var ps, rest := Pieces(s), Pieces(s[i + 1..]);
      assert ps == [s[..i]] + rest;
      assert ps[0] == s[..i] && ps[1..] == rest;
      JoinPieces(s[i + 1..]);
      assert Join(ps) == s[..i] + " " + s[i + 1..];
      assert s == s[..i] + " " + s[i + 1..];
    }
  }

  /** The first space of `w + " " + rest`, when `w` has none, is the one after `w`. */
  lemma {:induction false} FirstSpaceAfterWord(w: string, rest: string)
    requires ' ' !in w
    ensures ' ' in w + " " + rest
    ensures FirstSpace(w + " " + rest) == |w|
  {
    var s := w + " " + rest;
    assert s[|w|] == ' ';
    if w != [] {
      assert s[1..] == w[1..] + " " + rest;
      FirstSpaceAfterWord(w[1..], rest);
    }
  }

  /** Splitting the join of space-free pieces gives the pieces back. */
  lemma {:induction false} PiecesJoin(ps: seq<string>)
    requires |ps| >= 1
    requires forall k :: 0 <= k < |ps| ==> ' ' !in ps[k]
    ensures Pieces(Join(ps)) == ps
  {
    if |ps| > 1 {
      var rest := Join(ps[1..]);
      var s := ps[0] + " " + rest;
      FirstSpaceAfterWord(ps[0], rest);
      assert s[..|ps[0]|] == ps[0];
      assert s[|ps[0]| + 1..] == rest;
      PiecesJoin(ps[1..]);
    }
  }

  /** Removes the empty pieces at the end, as String.split does with its default limit. */
  function DropTrailingEmpty(ps: seq<string>): (r: seq<string>)
    ensures |r| <= |ps| && r == ps[..|r|]
    ensures forall k :: |r| <= k < |ps| ==> ps[k] == ""
    ensures r == [] || r[|r| - 1] != ""
  {
    if |ps| > 0 && ps[|ps| - 1] == "" then DropTrailingEmpty(ps[..|ps| - 1]) else ps
  }

  /**
   * String.split(" "): a string without a space comes back whole (so "" gives [""]);
   * otherwise the pieces between spaces, without the trailing empty ones (so " " gives []).
   */
  function Split(s: string): (r: seq<string>)
    ensures forall k :: 0 <= k < |r| ==> ' ' !in r[k]
    ensures ' ' !in s ==> r == [s]
    ensures ' ' in s ==> |r| <= |Pieces(s)| && r == Pieces(s)[..|r|] && (r == [] || r[|r| - 1] != "")
    ensures ' ' in s ==> forall k :: |r| <= k < |Pieces(s)| ==> Pieces(s)[k] == ""
  {
    if ' ' !in s then [s] else DropTrailingEmpty(Pieces(s))
  }

  /** A word, a space and a non-empty space-free argument split into exactly those two parts. */
  lemma SplitWordAndArgument(w: string, arg: string)
    requires ' ' !in w && ' ' !in arg && arg != ""
    ensures Split(w + " " + arg) == [w, arg]
  {
    assert Join([w, arg]) == w + " " + arg;
    PiecesJoin([w, arg]);
    assert (w + " " + arg)[|w|] == ' ';
  }

  // ---------------------------------------------------------------------------
  // Integer.parseInt and Integer.toString
  // ---------------------------------------------------------------------------

  const INT_MIN: int := -0x8000_0000
  const INT_MAX: int := 0x7fff_ffff

  /** A value of Java's 32-bit `int`. */
  predicate IsInt32(n: int) {
    INT_MIN <= n <= INT_MAX
  }

  predicate IsDigit(c: char) {
    '0' <= c <= '9'
  }

  predicate AllDigits(s: string) {
    forall i :: 0 <= i < |s| ==> IsDigit(s[i])
  }

  /** The value of a run of decimal digits, most significant first. */
  function DigitsValue(ds: string): nat
    requires AllDigits(ds)
  {
    if ds == [] then 0 else DigitsValue(ds[..|ds| - 1]) * 10 + (ds[|ds| - 1] as int - '0' as int)
  }

  /** `s` without its leading sign, if it has one. */
  function Unsigned(s: string): (u: string)
    ensures |u| <= |s| && u == s[|s| - |u|..]
  {
    if |s| > 0 && (s[0] == '-' || s[0] == '+') then s[1..] else s
  }

  /** The sign `s` starts with: -1 after a '-', 1 otherwise. */
  function SignOf(s: string): int {
    if |s| > 0 && s[0] == '-' then -1 else 1
  }

  /** The text parseInt reads: an optional '-' or '+' followed by at least one digit. */
  predicate IsNumeral(s: string) {
    Unsigned(s) != [] && AllDigits(Unsigned(s))
  }

  /**
   * Integer.parseInt(s): an optional '-' or '+' followed by at least one digit,
   * whose value fits in 32 bits. `None` stands for the NumberFormatException,
   * thrown for any other text and for a value out of range.
   */
  function ParseInt(s: string): (r: Option<int>)
    ensures r.Some? <==> IsNumeral(s) && IsInt32(SignOf(s) * DigitsValue(Unsigned(s)))
    ensures r.Some? ==> r.value == SignOf(s) * DigitsValue(Unsigned(s))
    ensures r.Some? ==> IsInt32(r.value)
  {
    if |s| == 0 then
      None
    else
      var signed := s[0] == '-' || s[0] == '+';
      var digits := if signed then s[1..] else s;
      if |digits| == 0 || !AllDigits(digits) then
        None
      else
        var magnitude := DigitsValue(digits);
        var v: int := if s[0] == '-' then -(magnitude as int) else magnitude;
        if IsInt32(v) then Some(v) else None
  }

  function DigitChar(d: nat): (c: char)
    requires d < 10
  {
    ('0' as int + d) as char
  }

  /** Integer.toString of a non-negative value: its decimal digits, no leading zero. */
  function FormatNat(n: nat): (s: string)
    ensures |s| > 0 && AllDigits(s)
  {
    if n < 10 then [DigitChar(n)] else FormatNat(n / 10) + [DigitChar(n % 10)]
  }

  /** Integer.toString: a '-' for negative values, then the digits of the magnitude. */
  function FormatInt(n: int): (s: string)
    ensures |s| > 0 && ' ' !in s
  {
    if n < 0 then "-" + FormatNat(-n) else FormatNat(n)
  }

  /** The digits FormatNat writes read back as the number. */
  lemma {:induction false} DigitsValueOfFormat(n: nat)
    ensures DigitsValue(FormatNat(n)) == n
  {
    if n >= 10 {
      DigitsValueOfFormat(n / 10);
      var s := FormatNat(n);
      assert s[..|s| - 1] == FormatNat(n / 10);
    }
  }

  /** parseInt undoes toString on every 32-bit value, and rejects the text of every other value. */
  lemma ParseFormat(n: int)
    ensures ParseInt(FormatInt(n)) == if IsInt32(n) then Some(n) else None
  {
    if n < 0 {
      DigitsValueOfFormat(-n);
      assert Unsigned(FormatInt(n)) == FormatNat(-n);
    } else {
      DigitsValueOfFormat(n);
      assert Unsigned(FormatInt(n)) == FormatNat(n);
    }
  }

  /** A leading '+' changes nothing: "+N" parses as N does. */
  lemma ParsePlusSign(n: nat)
    ensures ParseInt("+" + FormatNat(n)) == ParseInt(FormatNat(n))
  {
    assert Unsigned("+" + FormatNat(n)) == FormatNat(n) == Unsigned(FormatNat(n));
  }
}
