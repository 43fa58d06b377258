/** The string operations the pages use: `toLowerCase`, `includes` and
    `replace` with a one-character string pattern (which replaces only the
    first occurrence). */
module Text {
  import opened Seqs

  predicate IsAsciiUpper(c: char)
  {
    'A' <= c <= 'Z'
  }

  function LowerChar(c: char): char
  {
    if IsAsciiUpper(c) then (c as int - 'A' as int + 'a' as int) as char else c
  }

  /** `s.toLowerCase()` on ASCII letters. */
  function Lower(s: string): (r: string)
    ensures |r| == |s|
    ensures forall i :: 0 <= i < |r| ==> !IsAsciiUpper(r[i])
    ensures forall i :: 0 <= i < |s| ==>
      if IsAsciiUpper(s[i]) then r[i] as int == s[i] as int + 32 else r[i] == s[i]
  {
    seq(|s|, i requires 0 <= i < |s| => LowerChar(s[i]))
  }

  /** Lower-casing twice is lower-casing once. */
  lemma LowerIdempotent(s: string)
    ensures Lower(Lower(s)) == Lower(s)
  {
    var once := Lower(s);
    var twice := Lower(once);
    forall i | 0 <= i < |s| ensures twice[i] == once[i] {
      assert !IsAsciiUpper(once[i]);
    }
  }

  /** `h.includes(n)`: `n` starts at some position of `h`. */
  function Contains(h: string, n: string): bool
  {
    n <= h || (h != [] && Contains(h[1..], n))
  }

  /** `n` occurs in `h` starting at position `i`. */
  predicate OccursAt(h: string, n: string, i: int)
  {
    0 <= i <= |h| - |n| && h[i..i + |n|] == n
  }

  /** Contains agrees with the positional definition of a substring. */
  lemma ContainsAt(h: string, n: string)
    ensures Contains(h, n) <==> exists i :: OccursAt(h, n, i)
  {
    if Contains(h, n) {
      var i := ContainsWitness(h, n);
    }
    forall i | OccursAt(h, n, i) ensures Contains(h, n) {
      OccursImpliesContains(h, n, i);
    }
  }

  /** A position where a contained string occurs. */
  lemma {:induction false} ContainsWitness(h: string, n: string) returns (i: nat)
    requires Contains(h, n)
    ensures OccursAt(h, n, i)
  {
    if n <= h {
      i := 0;
    } else {
      var j := ContainsWitness(h[1..], n);
      i := j + 1;
      assert h[i..i + |n|] == h[1..][j..j + |n|];
    }
  }

  /** An occurrence at any position makes the string contained. */
  lemma {:induction false} OccursImpliesContains(h: string, n: string, i: int)
    requires OccursAt(h, n, i)
    ensures Contains(h, n)
    decreases |h|
  {
    if i == 0 {
      assert n == h[..|n|];
    } else {
      assert h[1..][i - 1..i - 1 + |n|] == h[i..i + |n|];
      OccursImpliesContains(h[1..], n, i - 1);
    }
  }

  /** The empty string is contained in every string. */
  lemma ContainsEmpty(h: string)
    ensures Contains(h, "")
  {
  }

  /** `s.replace(c, d)` for one-character strings: only the first `c` becomes `d`. */
  function ReplaceFirst(s: string, c: char, d: char): (r: string)
    ensures |r| == |s|
    ensures c in s ==> r == s[..FirstIndex(s, c)] + [d] + s[FirstIndex(s, c) + 1..]
    ensures c !in s ==> r == s
  {
    if s == [] then []
    else if s[0] == c then
      assert FirstIndex(s, c) == 0 && s[..0] == [];
      [d] + s[1..]
    else
      var rest := ReplaceFirst(s[1..], c, d);
      if c in s then
        FirstIndexTail(s, c);
        var j := FirstIndex(s[1..], c);
        assert rest == s[1..][..j] + [d] + s[1..][j + 1..];
        assert [s[0]] + rest == ([s[0]] + s[1..][..j]) + [d] + s[1..][j + 1..];
        [s[0]] + rest
      else
        assert c !in s[1..];
        assert [s[0]] + s[1..] == s;
        [s[0]] + rest
  }

  /** Past a first character that is not `c`, the first `c` is one further on,
      and the pieces around it are the tail's pieces with that character added. */
  lemma FirstIndexTail(s: string, c: char)
    requires s != [] && s[0] != c && c in s
    ensures c in s[1..]
    ensures FirstIndex(s, c) == FirstIndex(s[1..], c) + 1
    ensures s[..FirstIndex(s, c)] == [s[0]] + s[1..][..FirstIndex(s[1..], c)]
    ensures s[FirstIndex(s, c) + 1..] == s[1..][FirstIndex(s[1..], c) + 1..]
  {
    assert s == [s[0]] + s[1..];
  }
}
