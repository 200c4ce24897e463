/**
  The handful of java.lang.String and java.lang.Integer operations the
  emailing analyzers rely on, written out over `seq<char>`.
 */
module JavaStrings {

  import opened Wrappers

  /** `String.trim` removes every leading character whose code is at most that of the space. */
  function TrimLeading(s: string): (r: string)
    ensures |r| <= |s| && r == s[|s| - |r|..]
    ensures r == [] || r[0] > ' '
    ensures forall i :: 0 <= i < |s| - |r| ==> s[i] <= ' '
    decreases |s|
  {
    if s != [] && s[0] <= ' ' then TrimLeading(s[1..]) else s
  }

  /** ... and every trailing one. */
  function TrimTrailing(s: string): (r: string)
    ensures |r| <= |s| && r == s[..|r|]
    ensures r == [] || r[|r| - 1] > ' '
    ensures forall i :: |r| <= i < |s| ==> s[i] <= ' '
    decreases |s|
  {
    if s != [] && s[|s| - 1] <= ' ' then TrimTrailing(s[..|s| - 1]) else s
  }

  function Trim(s: string): string
  {
    TrimTrailing(TrimLeading(s))
  }

  /**
    `Strings.isNullOrEmpty(s.trim())` for a non-null `s`: trimming leaves
    nothing exactly when every character is one that `trim` removes
    (BlankIsTrimmedEmpty).
   */
  predicate IsBlank(s: string)
  {
    forall i :: 0 <= i < |s| ==> s[i] <= ' '
  }

  lemma BlankIsTrimmedEmpty(s: string)
    ensures IsBlank(s) <==> Trim(s) == []
  {
    var t := TrimLeading(s);
    assert Trim(s) == [] ==> t == [];
    assert t != [] ==> t[0] == s[|s| - |t|];
  }

  /** The characters of `k` from index `m` on equal those of `s` from `i + m` on. */
  predicate MatchesFrom(s: string, k: string, i: nat, m: nat)
    requires i + |k| <= |s|
    decreases |k| - m
  {
    m >= |k| || (s[i + m] == k[m] && MatchesFrom(s, k, i, m + 1))
  }

  /** The text `k` occurs in `s` starting at position `i`, compared character by character. */
  predicate StartsAt(s: string, k: string, i: nat)
  {
    i + |k| <= |s| && MatchesFrom(s, k, i, 0)
  }

  lemma {:induction false} MatchesFromAll(s: string, k: string, i: nat, m: nat)
    requires i + |k| <= |s| && m <= |k|
    ensures MatchesFrom(s, k, i, m) <==> forall t :: m <= t < |k| ==> s[i + t] == k[t]
    decreases |k| - m
  {
    if m < |k| {
      MatchesFromAll(s, k, i, m + 1);
    }
  }

  /** StartsAt is the slice of `s` at `i` being `k`. */
  lemma StartsAtSlice(s: string, k: string, i: nat)
    ensures StartsAt(s, k, i) <==> i + |k| <= |s| && s[i..i + |k|] == k
  {
    if i + |k| <= |s| {
      MatchesFromAll(s, k, i, 0);
      if s[i..i + |k|] == k {
        forall t | 0 <= t < |k| ensures s[i + t] == k[t] {
          assert s[i..i + |k|][t] == s[i + t];
        }
      }
    }
  }

  /** An occurrence in the tail of `s` is one position further on in `s`. */
  lemma StartsAtTail(s: string, k: string, j: nat)
    requires s != []
    ensures StartsAt(s[1..], k, j) <==> StartsAt(s, k, j + 1)
  {
    StartsAtSlice(s[1..], k, j);
    StartsAtSlice(s, k, j + 1);
    if j + 1 + |k| <= |s| {
      assert s[1..][j..j + |k|] == s[j + 1..j + 1 + |k|];
    }
  }

  /**
    `s.indexOf(k, from)`: the first position at or after `from` where `k`
    occurs, or None for Java's -1. Only ever asked about a non-empty `k`.
   */
  function IndexOf(s: string, k: string, from: nat): Option<nat>
    requires k != []
    decreases |s| - from
  {
    if from + |k| > |s| then None
    else if StartsAt(s, k, from) then Some(from)
    else IndexOf(s, k, from + 1)
  }

  /**
    IndexOf finds an occurrence at or after `from`, and the FIRST one: no
    occurrence starts between `from` and the position found, and None means
    there is none at all from `from` on.
   */
  lemma {:induction false} IndexOfFirst(s: string, k: string, from: nat)
    requires k != []
    ensures var r := IndexOf(s, k, from);
      (r.Some? ==> from <= r.value && StartsAt(s, k, r.value)) &&
      forall j: nat :: from <= j && (r.None? || j < r.value) ==> !StartsAt(s, k, j)
    decreases |s| - from
  {
    if from + |k| <= |s| && !StartsAt(s, k, from) {
      IndexOfFirst(s, k, from + 1);
    }
  }

  /**
    `s.replace(k, v)`: every occurrence of `k`, found left to right and
    without overlap, is replaced by `v` in a single pass over `s`.
   */
  function Replace(s: string, k: string, v: string): string
    requires k != []
    decreases |s|
  {
    if |s| < |k| then s
    else if StartsAt(s, k, 0) then v + Replace(s[|k|..], k, v)
    else [s[0]] + Replace(s[1..], k, v)
  }

  /** Replacing a text that does not occur leaves the string as it is. */
  lemma {:induction false} ReplaceAbsent(s: string, k: string, v: string)
    requires k != []
    requires forall j: nat :: !StartsAt(s, k, j)
    ensures Replace(s, k, v) == s
    decreases |s|
  {
    if |s| >= |k| {
      assert !StartsAt(s, k, 0);
      forall j: nat ensures !StartsAt(s[1..], k, j) {
        StartsAtTail(s, k, j);
      }
      ReplaceAbsent(s[1..], k, v);
      assert s == [s[0]] + s[1..];
    }
  }

  /** Replacing a text by itself changes nothing. */
  lemma {:induction false} ReplaceSelf(s: string, k: string)
    requires k != []
    ensures Replace(s, k, k) == s
    decreases |s|
  {
    if |s| >= |k| {
      if StartsAt(s, k, 0) {
        ReplaceSelf(s[|k|..], k);
        StartsAtSlice(s, k, 0);
        assert s == s[..|k|] + s[|k|..];
      } else {
        ReplaceSelf(s[1..], k);
        assert s == [s[0]] + s[1..];
      }
    }
  }

  /**
    How `replace` changes the length: never longer when `v` is no longer than
    `k`, the same length when they are equally long, and strictly shorter when
    `v` is shorter and `k` occurs at all.
   */
  lemma {:induction false} ReplaceLength(s: string, k: string, v: string)
    requires k != [] && |v| <= |k|
    ensures |Replace(s, k, v)| <= |s|
    ensures |v| == |k| ==> |Replace(s, k, v)| == |s|
    ensures |v| < |k| && (exists j: nat :: StartsAt(s, k, j)) ==> |Replace(s, k, v)| < |s|
    decreases |s|
  {
    if |s| >= |k| {
      if StartsAt(s, k, 0) {
        ReplaceLength(s[|k|..], k, v);
      } else {
        ReplaceLength(s[1..], k, v);
        if exists j: nat :: StartsAt(s, k, j) {
          var j: nat :| StartsAt(s, k, j);
          StartsAtTail(s, k, j - 1);
        }
      }
    }
  }

  /** A character as a one-digit numeral. */
  function DigitChar(d: nat): (c: char)
    requires d < 10
    ensures '0' <= c <= '9' && (c as int) - ('0' as int) == d
  {
    (('0' as int) + d) as char
  }

  predicate IsDigits(s: string)
  {
    forall i :: 0 <= i < |s| ==> '0' <= s[i] <= '9'
  }

  /** The decimal numeral of a natural number, without leading zeros. */
  function Digits(n: nat): (r: string)
    ensures r != [] && IsDigits(r)
    ensures r[0] == '0' ==> n == 0
    decreases n
  {
    if n < 10 then [DigitChar(n)] else Digits(n / 10) + [DigitChar(n % 10)]
  }

  /** `Integer.toString(n)`, which is what `n + ""` produces. */
  function DecimalString(n: int): string
  {
    if n < 0 then "-" + Digits(-n) else Digits(n)
  }

  /** The value of a numeral (the partner of Digits). */
  function ParseDigits(s: string): nat
    requires IsDigits(s)
    decreases |s|
  {
    if s == [] then 0
    else ParseDigits(s[..|s| - 1]) * 10 + ((s[|s| - 1] as int) - ('0' as int))
  }

  /** `Integer.parseInt` on an optionally signed numeral (the partner of DecimalString). */
  function ParseDecimal(s: string): int
    requires s != [] && (s[0] == '-' ==> IsDigits(s[1..])) && (s[0] != '-' ==> IsDigits(s))
  {
    if s[0] == '-' then 0 - ParseDigits(s[1..]) as int else ParseDigits(s)
  }

  lemma {:induction false} DigitsRoundTrip(n: nat)
    ensures ParseDigits(Digits(n)) == n
    decreases n
  {
    if n >= 10 {
      var d := Digits(n);
      DigitsRoundTrip(n / 10);
      assert d[..|d| - 1] == Digits(n / 10);
    }
  }

  /** The port written into the SMTP properties reads back as the same number. */
  lemma DecimalRoundTrip(n: int)
    ensures var s := DecimalString(n);
      s != [] && (s[0] == '-' ==> IsDigits(s[1..])) && (s[0] != '-' ==> IsDigits(s)) &&
      ParseDecimal(s) == n
  {
    var s := DecimalString(n);
    if n < 0 {
      assert s[1..] == Digits(-n);
      DigitsRoundTrip(-n);
    } else {
      DigitsRoundTrip(n);
    }
  }
}
