/** The Python `str` operations the bot relies on: `strip`, `startswith`, `endswith` and `split(sep, 1)[0]`. */
module Text {

  /** Python's `str.isspace()` on one character: its whitespace scalars, ASCII and Unicode. */
  predicate IsSpace(c: char)
  {
    var n := c as int;
    (9 <= n <= 13) || (28 <= n <= 32) || n == 0x85 || n == 0xA0 || n == 0x1680
    || (0x2000 <= n <= 0x200A) || n == 0x2028 || n == 0x2029 || n == 0x202F
    || n == 0x205F || n == 0x3000
  }

  function TrimLeft(s: string): string
  {
    if |s| > 0 && IsSpace(s[0]) then TrimLeft(s[1..]) else s
  }

  function TrimRight(s: string): string
  {
    if |s| > 0 && IsSpace(s[|s| - 1]) then TrimRight(s[..|s| - 1]) else s
  }

  /** Python's `s.strip()`: whitespace removed from both ends. */
  function Strip(s: string): string
  {
    TrimRight(TrimLeft(s))
  }

  /** A string that `strip()` has nothing to remove from. */
  predicate IsStripped(t: string)
  {
    t == [] || (!IsSpace(t[0]) && !IsSpace(t[|t| - 1]))
  }

  /** Python's `s.startswith(p)`. */
  predicate StartsWith(s: string, p: string)
  {
    p <= s
  }

  /** Python's `s.endswith(p)`. */
  predicate EndsWith(s: string, p: string)
  {
    |p| <= |s| && s[|s| - |p|..] == p
  }

  /** `d` occurs in `s` starting at index `i`. */
  predicate OccursAt(s: string, d: string, i: nat)
  {
    i + |d| <= |s| && s[i..i + |d|] == d
  }

  /** Python's `d in s`. */
  predicate Contains(s: string, d: string)
  {
    exists i: nat | i <= |s| :: OccursAt(s, d, i)
  }

  /** Python's `s.split(d, 1)[0]`: the text before the first occurrence of `d`, or all of `s`. */
  function BeforeFirst(s: string, d: string): string
    decreases |s|
  {
    if |s| < |d| then s
    else if d <= s then []
    else [s[0]] + BeforeFirst(s[1..], d)
  }

  lemma {:induction false} TrimLeftSuffix(s: string)
    ensures |TrimLeft(s)| <= |s| && TrimLeft(s) == s[|s| - |TrimLeft(s)|..]
    ensures TrimLeft(s) == [] || !IsSpace(TrimLeft(s)[0])
  {
    if |s| > 0 && IsSpace(s[0]) {
      TrimLeftSuffix(s[1..]);
    }
  }

  lemma {:induction false} TrimRightPrefix(s: string)
    ensures |TrimRight(s)| <= |s| && TrimRight(s) == s[..|TrimRight(s)|]
    ensures TrimRight(s) == [] || !IsSpace(TrimRight(s)[|TrimRight(s)| - 1])
  {
    if |s| > 0 && IsSpace(s[|s| - 1]) {
      TrimRightPrefix(s[..|s| - 1]);
    }
  }

  /** `strip()` leaves no whitespace at either end. */
  lemma StripIsStripped(s: string)
    ensures IsStripped(Strip(s))
  {
    var u := TrimLeft(s);
    TrimLeftSuffix(s);
    TrimRightPrefix(u);
    var r := TrimRight(u);
    if r != [] {
      assert r[0] == u[0];
    }
  }

  /** A string without surrounding whitespace is its own `strip()`. */
  lemma StrippedIsFixpoint(t: string)
    requires IsStripped(t)
    ensures Strip(t) == t
  {
  }

  /** `strip()` is idempotent. */
  lemma StripIdempotent(s: string)
    ensures Strip(Strip(s)) == Strip(s)
  {
    StripIsStripped(s);
    StrippedIsFixpoint(Strip(s));
  }

  /** Stripping a stripped line read back with its newline gives the line again. */
  lemma StripLine(t: string)
    requires IsStripped(t)
    ensures Strip(t + "\n") == t
  {
    var u := t + "\n";
    assert IsSpace(u[|u| - 1]);
    assert u[..|u| - 1] == t;
    if t == [] {
      assert u[1..] == [];
      assert TrimLeft(u) == [];
    } else {
      assert u[0] == t[0];
      assert TrimLeft(u) == u;
      assert TrimRight(u) == TrimRight(t);
      assert TrimRight(t) == t;
    }
  }

  /** A stripped string never ends in a newline. */
  lemma StrippedNoNewline(t: string)
    requires IsStripped(t)
    ensures !EndsWith(t, "\n")
  {
    if t != [] {
      assert t[|t| - 1..] == [t[|t| - 1]];
    }
  }

  /** `split(d, 1)[0]` is a prefix of `s`, and unless it is all of `s`, `d` follows it. */
  lemma {:induction false} BeforeFirstStops(s: string, d: string)
    requires |d| > 0
    ensures BeforeFirst(s, d) <= s
    ensures BeforeFirst(s, d) == s || OccursAt(s, d, |BeforeFirst(s, d)|)
    decreases |s|
  {
    if |s| < |d| {
    } else if d <= s {
      assert s[0..|d|] == d;
    } else {
      var t := s[1..];
      BeforeFirstStops(t, d);
      var r' := BeforeFirst(t, d);
      assert BeforeFirst(s, d) == [s[0]] + r';
      if r' != t {
        assert t[|r'|..|r'| + |d|] == s[|r'| + 1..|r'| + 1 + |d|];
      }
    }
  }

  /** `d` occurs nowhere before the end of `split(d, 1)[0]`. */
  lemma {:induction false} BeforeFirstIsFirst(s: string, d: string)
    requires |d| > 0
    ensures forall i: nat :: i < |BeforeFirst(s, d)| ==> !OccursAt(s, d, i)
    decreases |s|
  {
    if |s| >= |d| && !(d <= s) {
      var t := s[1..];
      BeforeFirstIsFirst(t, d);
      var r' := BeforeFirst(t, d);
      assert BeforeFirst(s, d) == [s[0]] + r';
      forall i: nat | i < 1 + |r'| ensures !OccursAt(s, d, i) {
        if i == 0 {
          assert s[..|d|] != d;
        } else if i + |d| <= |s| {
          assert !OccursAt(t, d, i - 1);
          assert t[i - 1..i - 1 + |d|] == s[i..i + |d|];
        }
      }
    }
  }

  /** `split(d, 1)[0]` is the prefix of `s` that stops at the first occurrence of `d`,
      and all of `s` exactly when `d` does not occur. */
  lemma BeforeFirstSpec(s: string, d: string)
    requires |d| > 0
    ensures BeforeFirst(s, d) <= s
    ensures forall i: nat :: i < |BeforeFirst(s, d)| ==> !OccursAt(s, d, i)
    ensures BeforeFirst(s, d) == s || OccursAt(s, d, |BeforeFirst(s, d)|)
    ensures BeforeFirst(s, d) == s <==> !Contains(s, d)
  {
    BeforeFirstStops(s, d);
    BeforeFirstIsFirst(s, d);
    var r := BeforeFirst(s, d);
    if r == s {
      forall i: nat | i <= |s| ensures !OccursAt(s, d, i) {
        if i >= |s| {
        } else {
          assert i < |r|;
        }
      }
    } else {
      assert OccursAt(s, d, |r|);
    }
  }

  /** The prefix before the first `d` does not contain `d`. */
  lemma BeforeFirstHasNoDelimiter(s: string, d: string)
    requires |d| > 0
    ensures !Contains(BeforeFirst(s, d), d)
  {
    var r := BeforeFirst(s, d);
    BeforeFirstSpec(s, d);
    forall i: nat | OccursAt(r, d, i) ensures false {
      assert s[i..i + |d|] == r[i..i + |d|];
      assert OccursAt(s, d, i);
    }
  }

  /** `strip()` returns a slice of its argument. */
  lemma StripIsSlice(s: string) returns (a: nat)
    ensures a + |Strip(s)| <= |s| && Strip(s) == s[a..a + |Strip(s)|]
  {
    TrimLeftSuffix(s);
    var u := TrimLeft(s);
    TrimRightPrefix(u);
    a := |s| - |u|;
    assert u == s[a..];
  }

  /** A slice of a string without `d` has no `d` either. */
  lemma SliceKeepsAbsence(s: string, a: nat, b: nat, d: string)
    requires a <= b <= |s| && !Contains(s, d)
    ensures !Contains(s[a..b], d)
  {
    var w := s[a..b];
    forall i: nat | i <= b - a ensures !OccursAt(w, d, i) {
      assert !OccursAt(s, d, a + i);
      if i + |d| <= b - a {
        var x := w[i..i + |d|];
        var y := s[a + i..a + i + |d|];
        forall j | 0 <= j < |d| ensures x[j] == y[j] {
          assert w[i + j] == s[a + i + j];
        }
        assert x == y;
      }
    }
  }

  /** `strip()` cannot make `d` occur. */
  lemma StripKeepsAbsence(s: string, d: string)
    requires !Contains(s, d)
    ensures !Contains(Strip(s), d)
  {
    var a := StripIsSlice(s);
    SliceKeepsAbsence(s, a, a + |Strip(s)|, d);
  }
}
