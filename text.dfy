/** The string operations of Rust's standard library that the core uses:
    `split_once`, `split` and its iterator, ASCII upper-casing and
    `usize::from_str`. Strings are sequences of characters. */
module Text {
  import opened Common

  /** Position of the first `c` in `s`. */
  function IndexOf(s: string, c: char): (i: nat)
    requires c in s
    ensures i < |s| && s[i] == c && c !in s[..i]
  {
    if s[0] == c then 0 else 1 + IndexOf(s[1..], c)
  }

  /** `str::split_once`: the text before and after the first `c`. */
  function SplitOnce(s: string, c: char): (r: Option<(string, string)>)
    ensures r.None? <==> c !in s
    ensures r.Some? ==> c !in r.value.0 && r.value.0 + [c] + r.value.1 == s
  {
    if c in s then
      var i := IndexOf(s, c);
      assert s[..i] + [c] + s[i + 1..] == s;
      Some((s[..i], s[i + 1..]))
    else None
  }

  /** `str::split` collected: the maximal `c`-free pieces, in order. An
      empty string gives one empty piece. */
  function Split(s: string, c: char): (parts: seq<string>)
    ensures |parts| >= 1
    decreases |s|
  {
    match SplitOnce(s, c)
    case None => [s]
    case Some((before, after)) => [before] + Split(after, c)
  }

  /** The inverse of `Split`: the pieces with `c` between them. */
  function Join(parts: seq<string>, c: char): string
    requires |parts| >= 1
  {
    if |parts| == 1 then parts[0] else parts[0] + [c] + Join(parts[1..], c)
  }

  lemma {:induction false} JoinSplit(s: string, c: char)
    ensures Join(Split(s, c), c) == s
    decreases |s|
  {
    match SplitOnce(s, c)
    case None =>
    case Some((before, after)) =>
      JoinSplit(after, c);
      assert Split(s, c)[1..] == Split(after, c);
  }

  lemma {:induction false} SplitPiecesAreFree(s: string, c: char)
    ensures forall k :: 0 <= k < |Split(s, c)| ==> c !in Split(s, c)[k]
    decreases |s|
  {
    match SplitOnce(s, c)
    case None =>
    case Some((before, after)) =>
      SplitPiecesAreFree(after, c);
      assert Split(s, c)[1..] == Split(after, c);
  }

  /** The first occurrence is the one with no `c` before it. */
  lemma IndexOfFirst(s: string, c: char, i: nat)
    requires i < |s| && s[i] == c && c !in s[..i]
    ensures IndexOf(s, c) == i
  {
  }

  /** `split_once` cuts at a `c` exactly when no `c` comes before it. */
  lemma SplitOnceAt(before: string, c: char, after: string)
    requires c !in before
    ensures SplitOnce(before + [c] + after, c) == Some((before, after))
  {
    var s := before + [c] + after;
    assert s[..|before|] == before;
    IndexOfFirst(s, c, |before|);
    assert s[|before| + 1..] == after;
  }

  /** Appending `c` and more text leaves the first piece unchanged. */
  lemma SplitFirstPieceStable(s: string, c: char, extra: string)
    ensures Split(s + [c] + extra, c)[0] == Split(s, c)[0]
  {
    match SplitOnce(s, c)
    case None =>
      SplitOnceAt(s, c, extra);
      assert Split(s + [c] + extra, c) == [s] + Split(extra, c);
    case Some((before, after)) =>
      var rest := after + [c] + extra;
      assert s == before + [c] + after;
      assert s + [c] + extra == before + [c] + rest;
      SplitOnceAt(before, c, rest);
      assert Split(s + [c] + extra, c) == [before] + Split(rest, c);
  }

  /** There is a second piece exactly when `c` occurs. */
  lemma SplitHasSecondPiece(s: string, c: char)
    ensures |Split(s, c)| >= 2 <==> c in s
  {
  }

  /** The pieces still to come from a `str::Split` iterator over `rest`. */
  function Pending(rest: string, c: char, finished: bool): seq<string> {
    if finished then [] else Split(rest, c)
  }

  /** The lazy `str::Split` iterator: `Next` yields the next piece. */
  class SplitIter {
    const sep: char
    var rest: string
    var finished: bool

    constructor (s: string, c: char)
      ensures sep == c && Pending(rest, sep, finished) == Split(s, c)
    {
      sep := c;
      rest := s;
      finished := false;
    }

    method Next() returns (piece: Option<string>)
      modifies this
      ensures old(Pending(rest, sep, finished)) == [] ==> piece.None? && Pending(rest, sep, finished) == []
      ensures old(Pending(rest, sep, finished)) != [] ==>
        piece == Some(old(Pending(rest, sep, finished))[0]) &&
        Pending(rest, sep, finished) == old(Pending(rest, sep, finished))[1..]
    {
      if finished {
        piece := None;
      } else {
        match SplitOnce(rest, sep)
        case None =>
          piece := Some(rest);
          finished := true;
        case Some((before, after)) =>
          piece := Some(before);
          rest := after;
      }
    }
  }

  predicate IsLower(ch: char) {
    'a' <= ch <= 'z'
  }

  /** `char::to_uppercase` on ASCII letters; every other character is kept.
      A lower-case letter becomes the capital at the same place in the
      alphabet, the result is never a lower-case letter, and only
      lower-case letters change. */
  function UpperChar(ch: char): (u: char)
    ensures !IsLower(u)
    ensures IsLower(ch) ==> 'A' <= u <= 'Z' && u as int - 'A' as int == ch as int - 'a' as int
    ensures u != ch ==> IsLower(ch)
  {
    if IsLower(ch) then (ch as int - 32) as char else ch
  }

  lemma UpperCharIdempotent(ch: char)
    ensures UpperChar(UpperChar(ch)) == UpperChar(ch)
  {
  }

  function ToUpper(s: string): (u: string)
    ensures |u| == |s| && forall k :: 0 <= k < |s| ==> u[k] == UpperChar(s[k])
  {
    if s == [] then [] else [UpperChar(s[0])] + ToUpper(s[1..])
  }

  /** An upper-cased string holds no lower-case letter, and upper-casing it
      again changes nothing. */
  lemma ToUpperNoLower(s: string)
    ensures forall k :: 0 <= k < |ToUpper(s)| ==> !IsLower(ToUpper(s)[k])
    ensures ToUpper(ToUpper(s)) == ToUpper(s)
  {
    var u := ToUpper(s);
    assert forall k :: 0 <= k < |u| ==> ToUpper(u)[k] == UpperChar(u[k]) == u[k];
  }

  predicate IsDigit(ch: char) {
    '0' <= ch <= '9'
  }

  /** The value of a run of decimal digits, most significant first. */
  function DecimalValue(d: string): nat
    requires forall k :: 0 <= k < |d| ==> IsDigit(d[k])
  {
    if d == [] then 0
    else
      assert IsDigit(d[|d| - 1]);
      10 * DecimalValue(d[..|d| - 1]) + (d[|d| - 1] as int - '0' as int)
  }

  predicate AllDigits(d: string) {
    forall k :: 0 <= k < |d| ==> IsDigit(d[k])
  }

  /** The text `usize::from_str` reads digits from: all but a leading `+`. */
  function UsizeDigits(s: string): (d: string)
    ensures |s| > 0 && s[0] == '+' ==> d == s[1..]
    ensures !(|s| > 0 && s[0] == '+') ==> d == s
  {
    if |s| > 0 && s[0] == '+' then s[1..] else s
  }

  /** `usize::from_str` on a 64-bit host: an optional `+`, then at least one
      decimal digit, and a value below 2^64; anything else is an error. */
  function ParseUsize(s: string): (r: Option<nat>)
    ensures r.Some? ==> AllDigits(UsizeDigits(s)) && r.value == DecimalValue(UsizeDigits(s))
    ensures r.Some? ==> r.value < U64_MODULUS
    ensures UsizeDigits(s) == [] ==> r.None?
    ensures (exists k :: 0 <= k < |UsizeDigits(s)| && !IsDigit(UsizeDigits(s)[k])) ==> r.None?
    ensures UsizeDigits(s) != [] && AllDigits(UsizeDigits(s)) && DecimalValue(UsizeDigits(s)) >= U64_MODULUS ==> r.None?
    ensures UsizeDigits(s) != [] && AllDigits(UsizeDigits(s)) && DecimalValue(UsizeDigits(s)) < U64_MODULUS ==>
              r == Some(DecimalValue(UsizeDigits(s)))
  {
    var digits := UsizeDigits(s);
    if digits == [] || exists k :: 0 <= k < |digits| && !IsDigit(digits[k]) then None
    else if DecimalValue(digits) < U64_MODULUS then Some(DecimalValue(digits))
    else None
  }

  /** A leading zero does not change the value of a run of digits. */
  lemma {:induction false} DecimalValueLeadingZero(d: string)
    requires AllDigits(d)
    ensures AllDigits(['0'] + d) && DecimalValue(['0'] + d) == DecimalValue(d)
    decreases |d|
  {
    var z := ['0'] + d;
    if d != [] {
      var n := |d| - 1;
      assert z[..|z| - 1] == ['0'] + d[..n];
      assert z[|z| - 1] == d[n];
      DecimalValueLeadingZero(d[..n]);
    } else {
      assert z[..0] == [];
    }
  }

  /** A leading `+` and leading zeros do not change what parses. */
  lemma ParseUsizeSignAndZeros(d: string)
    requires AllDigits(d) && d != []
    ensures ParseUsize(['+'] + d) == ParseUsize(d)
    ensures ParseUsize(['0'] + d) == ParseUsize(d)
  {
    assert (['+'] + d)[1..] == d;
    DecimalValueLeadingZero(d);
  }

  /** The decimal form of `n`, without leading zeros. */
  function ShowNat(n: nat): (d: string)
    ensures |d| >= 1 && forall k :: 0 <= k < |d| ==> IsDigit(d[k])
  {
    if n < 10 then [('0' as int + n) as char] else ShowNat(n / 10) + [('0' as int + n % 10) as char]
  }

  lemma {:induction false} DecimalValueOfShow(n: nat)
    ensures DecimalValue(ShowNat(n)) == n
  {
    if n >= 10 {
      DecimalValueOfShow(n / 10);
      var d := ShowNat(n);
      assert d[..|d| - 1] == ShowNat(n / 10);
    }
  }

  /** Parsing the decimal form of any `usize` gives it back. */
  lemma ParseShowRoundTrip(n: nat)
    requires n < U64_MODULUS
    ensures ParseUsize(ShowNat(n)) == Some(n)
  {
    DecimalValueOfShow(n);
  }
}
