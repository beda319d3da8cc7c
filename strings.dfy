/** Text utilities the prompts and identifiers rest on: how a template literal
    prints a non-negative integer, a parser that reads it back, containment of
    one text in another, and the joining of a template literal's pieces. */
module Strings {

  predicate IsDigit(c: char)
  {
    '0' <= c <= '9'
  }

  predicate AllDigits(s: string)
  {
    forall i :: 0 <= i < |s| ==> IsDigit(s[i])
  }

  function DigitChar(d: nat): (c: char)
    requires d < 10
    ensures IsDigit(c) && DigitValue(c) == d
  {
    ('0' as int + d) as char
  }

  function DigitValue(c: char): nat
    requires IsDigit(c)
  {
    c as int - '0' as int
  }

  /** The decimal text of `n`, as `${n}` prints an integer-valued number. */
  function Decimal(n: nat): (s: string)
    ensures |s| >= 1 && AllDigits(s)
  {
    if n < 10 then [DigitChar(n)] else Decimal(n / 10) + [DigitChar(n % 10)]
  }

  /** Reads a string of digits as a decimal number. */
  function ParseDecimal(s: string): nat
    requires AllDigits(s)
  {
    if s == [] then 0 else 10 * ParseDecimal(s[..|s| - 1]) + DigitValue(s[|s| - 1])
  }

  lemma {:induction false} ParseDecimalOfDecimal(n: nat)
    ensures ParseDecimal(Decimal(n)) == n
  {
    if n >= 10 {
      var s := Decimal(n / 10);
      ParseDecimalOfDecimal(n / 10);
      assert (s + [DigitChar(n % 10)])[..|s|] == s;
    }
  }

  /** Different numbers print differently. */
  lemma DecimalInjective(m: nat, n: nat)
    requires Decimal(m) == Decimal(n)
    ensures m == n
  {
    ParseDecimalOfDecimal(m);
    ParseDecimalOfDecimal(n);
  }

  /** A number printed after a common lead and before a non-digit is read back
      unambiguously: two such texts are equal only when the numbers are. */
  lemma SameLeadSameNumber(lead: string, m: nat, n: nat, r1: string, r2: string)
    requires r1 != [] && !IsDigit(r1[0])
    requires r2 != [] && !IsDigit(r2[0])
    requires lead + Decimal(m) + r1 == lead + Decimal(n) + r2
    ensures m == n
  {
    var x, y := Decimal(m), Decimal(n);
    var s := lead + x + r1;
    assert s == lead + y + r2;
    assert x == s[|lead|..|lead| + |x|];
    assert y == s[|lead|..|lead| + |y|];
    DecimalInjective(m, n);
  }

  /** `t` appears in `s` starting at index `k`. */
  predicate OccursAt(s: string, t: string, k: nat)
  {
    k + |t| <= |s| && s[k..k + |t|] == t
  }

  /** `t` appears somewhere in `s` (JavaScript's `s.includes(t)`). */
  predicate Contains(s: string, t: string)
  {
    exists k: nat | k <= |s| :: OccursAt(s, t, k)
  }

  /** `s` ends with `t`. */
  predicate EndsWith(s: string, t: string)
  {
    |t| <= |s| && s[|s| - |t|..] == t
  }

  /** `t` occurs where it was appended. */
  lemma OccursAtEnd(x: string, t: string)
    ensures OccursAt(x + t, t, |x|)
  {
    assert (x + t)[|x|..|x| + |t|] == t;
  }

  /** An occurrence survives appending text after it. */
  lemma OccursExtend(s: string, t: string, k: nat, u: string)
    requires OccursAt(s, t, k)
    ensures OccursAt(s + u, t, k)
  {
    assert (s + u)[k..k + |t|] == s[k..k + |t|];
  }

  /** An occurrence moves right by the length of text put before it. */
  lemma OccursShift(u: string, s: string, t: string, k: nat)
    requires OccursAt(s, t, k)
    ensures OccursAt(u + s, t, |u| + k)
  {
    assert (u + s)[|u| + k..|u| + k + |t|] == s[k..k + |t|];
  }

  /** An occurrence of an occurrence. */
  lemma OccursWithin(s: string, t: string, k: nat, w: string, j: nat)
    requires OccursAt(s, t, k) && OccursAt(t, w, j)
    ensures OccursAt(s, w, k + j)
  {
    forall i | 0 <= i < |w|
      ensures s[k + j + i] == w[i]
    {
      assert w[i] == t[j..j + |w|][i] == t[j + i];
      assert t[j + i] == s[k..k + |t|][j + i] == s[k + j + i];
    }
    assert s[k + j..k + j + |w|] == w;
  }

  /** Two texts occurring at the same place agree character by character. */
  lemma SamePlaceSameChars(s: string, t1: string, t2: string, k: nat, i: nat)
    requires OccursAt(s, t1, k) && OccursAt(s, t2, k)
    requires i < |t1| && i < |t2|
    ensures t1[i] == t2[i]
  {
    assert t1[i] == s[k..k + |t1|][i] == s[k + i];
    assert t2[i] == s[k..k + |t2|][i] == s[k + i];
  }

  /** A number between a fixed lead and a trail that starts with a non-digit is
      read back unambiguously from the place where it occurs. */
  lemma NumberAtSamePlace(s: string, k: nat, lead: string, m: nat, n: nat, trail: string)
    requires trail != [] && !IsDigit(trail[0])
    requires OccursAt(s, lead + Decimal(m) + trail, k)
    requires OccursAt(s, lead + Decimal(n) + trail, k)
    ensures m == n
  {
    var t1, t2 := lead + Decimal(m) + trail, lead + Decimal(n) + trail;
    var u := s[k..];
    assert u == t1 + u[|t1|..] == lead + Decimal(m) + (trail + u[|t1|..]);
    assert u == t2 + u[|t2|..] == lead + Decimal(n) + (trail + u[|t2|..]);
    SameLeadSameNumber(lead, m, n, trail + u[|t1|..], trail + u[|t2|..]);
  }

  /** The pieces of `parts` written one after another, as a template literal
      writes its fixed texts and interpolated values. */
  function Concat(parts: seq<string>): string
  {
    if parts == [] then "" else Concat(parts[..|parts| - 1]) + parts[|parts| - 1]
  }

  lemma {:induction false} ConcatAppend(xs: seq<string>, ys: seq<string>)
    ensures Concat(xs + ys) == Concat(xs) + Concat(ys)
  {
    if ys == [] {
      assert xs + ys == xs;
    } else {
      var zs := xs + ys;
      assert zs[..|zs| - 1] == xs + ys[..|ys| - 1];
      ConcatAppend(xs, ys[..|ys| - 1]);
    }
  }

  /** The pieces `i` to `j` of a concatenation sit where the pieces before `i` end. */
  lemma ConcatRunAt(parts: seq<string>, i: nat, j: nat)
    requires i <= j <= |parts|
    ensures OccursAt(Concat(parts), Concat(parts[i..j]), |Concat(parts[..i])|)
  {
    assert parts == parts[..i] + parts[i..j] + parts[j..];
    ConcatAppend(parts[..i], parts[i..j]);
    ConcatAppend(parts[..i] + parts[i..j], parts[j..]);
    OccursAtEnd(Concat(parts[..i]), Concat(parts[i..j]));
    OccursExtend(Concat(parts[..i]) + Concat(parts[i..j]), Concat(parts[i..j]), |Concat(parts[..i])|, Concat(parts[j..]));
  }

  /** Piece `i` of a concatenation sits where the pieces before it end. */
  lemma ConcatPieceAt(parts: seq<string>, i: nat)
    requires i < |parts|
    ensures OccursAt(Concat(parts), parts[i], |Concat(parts[..i])|)
  {
    ConcatRunAt(parts, i, i + 1);
    assert parts[i..i + 1] == [parts[i]];
    assert Concat([parts[i]]) == Concat([]) + parts[i];
    assert Concat([]) + parts[i] == parts[i];
  }

  /** The last piece ends the concatenation. */
  lemma ConcatEndsWithLast(parts: seq<string>)
    requires parts != []
    ensures EndsWith(Concat(parts), parts[|parts| - 1])
  {
    var x, t := Concat(parts[..|parts| - 1]), parts[|parts| - 1];
    assert (x + t)[|x + t| - |t|..] == t;
  }

  lemma OccursSelf(s: string)
    ensures OccursAt(s, s, 0)
  {
    assert s[0..|s|] == s;
  }

  lemma ConcatOne(x: string)
    ensures Concat([x]) == x
  {
    assert [x][..0] == [];
    assert Concat([x]) == "" + x;
  }

  /** Three consecutive pieces of a concatenation sit where the pieces before them end. */
  lemma ConcatRun3At(parts: seq<string>, i: nat)
    requires i + 3 <= |parts|
    ensures OccursAt(Concat(parts), parts[i] + parts[i + 1] + parts[i + 2], |Concat(parts[..i])|)
  {
    ConcatRunAt(parts, i, i + 3);
    var run := parts[i..i + 3];
    assert run[..2][..1] == [parts[i]] && run[..2] == [parts[i], parts[i + 1]];
    ConcatOne(parts[i]);
    assert Concat(run[..2]) == parts[i] + parts[i + 1];
    assert Concat(run) == Concat(run[..2]) + parts[i + 2];
  }

  /** Two concatenations that are equal, and agree on the pieces before piece
      `i`, put piece `i` at the same place: where both pieces are long enough
      they agree character by character. */
  lemma CharInSamePiece(ps: seq<string>, qs: seq<string>, i: nat, j: nat)
    requires i < |ps| && i < |qs| && ps[..i] == qs[..i] && Concat(ps) == Concat(qs)
    requires j < |ps[i]| && j < |qs[i]|
    ensures ps[i][j] == qs[i][j]
  {
    ConcatPieceAt(ps, i);
    ConcatPieceAt(qs, i);
    SamePlaceSameChars(Concat(ps), ps[i], qs[i], |Concat(ps[..i])|, j);
  }

  /** A number printed between a fixed lead and a trail that starts with a
      non-digit, at the same offset of the same piece of two equal
      concatenations that agree before that piece, is the same number. */
  lemma NumberInSamePiece(ps: seq<string>, qs: seq<string>, i: nat, j: nat, lead: string, m: nat, n: nat, trail: string)
    requires i < |ps| && i < |qs| && ps[..i] == qs[..i] && Concat(ps) == Concat(qs)
    requires trail != [] && !IsDigit(trail[0])
    requires OccursAt(ps[i], lead + Decimal(m) + trail, j)
    requires OccursAt(qs[i], lead + Decimal(n) + trail, j)
    ensures m == n
  {
    var s, k := Concat(ps), |Concat(ps[..i])|;
    var t1, t2 := lead + Decimal(m) + trail, lead + Decimal(n) + trail;
    ConcatPieceAt(ps, i);
    ConcatPieceAt(qs, i);
    assert OccursAt(s, ps[i], k) && OccursAt(s, qs[i], k);
    OccursWithin(s, ps[i], k, t1, j);
    OccursWithin(s, qs[i], k, t2, j);
    NumberAtSamePlace(s, k + j, lead, m, n, trail);
  }

  /** Taking one more piece appends it. */
  lemma ConcatTakeNext(parts: seq<string>, i: nat)
    requires i < |parts|
    ensures Concat(parts[..i + 1]) == Concat(parts[..i]) + parts[i]
  {
    assert parts[..i + 1][..i] == parts[..i];
  }
}
