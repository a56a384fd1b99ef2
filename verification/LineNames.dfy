/** Names that a line of input can hold: short, not empty, of printable characters. */
module LineNames {
  import opened Seqs

  /** The binary numeral of i. */
  function Numeral(i: nat): (s: string)
    ensures s != "" && forall j :: 0 <= j < |s| ==> s[j] == '0' || s[j] == '1'
  {
    var d := if i % 2 == 0 then "0" else "1";
    if i < 2 then d else Numeral(i / 2) + d
  }

  function Value(s: string): nat {
    if s == "" then 0 else 2 * Value(s[..|s| - 1]) + if s[|s| - 1] == '1' then 1 else 0
  }

  lemma {:induction false} NumeralValue(i: nat)
    ensures Value(Numeral(i)) == i
  {
    var s := Numeral(i);
    if i >= 2 {
      NumeralValue(i / 2);
      assert s[..|s| - 1] == Numeral(i / 2);
    } else {
      assert s[..0] == "";
    }
  }

  lemma {:induction false} NumeralLength(i: nat, j: nat)
    requires i <= j
    ensures |Numeral(i)| <= |Numeral(j)|
  {
    if i >= 2 { NumeralLength(i / 2, j / 2); }
  }

  /** A name of binary digits, no longer than the numeral of m: at most 31 digits while m < 2^31. */
  ghost predicate Short(x: string, m: nat) {
    && 0 < |x| <= |Numeral(m)|
    && forall j :: 0 <= j < |x| ==> x[j] == '0' || x[j] == '1'
  }

  /** n different numerals outside used, the first from i on. */
  lemma {:induction false} NumeralsFrom(i: nat, n: nat, used: set<string>) returns (f: seq<string>, from: seq<nat>)
    ensures |f| == n && |from| == n && Unique(f)
    ensures forall j :: 0 <= j < n ==> i <= from[j] < i + n + |used| && f[j] == Numeral(from[j]) && f[j] !in used
    decreases n + |used|
  {
    if n == 0 {
      f, from := [], [];
    } else if Numeral(i) in used {
      f, from := NumeralsFrom(i + 1, n, used - {Numeral(i)});
      forall j | 0 <= j < n ensures f[j] !in used {
        DifferentNumerals(i, from[j]);
      }
    } else {
      var g, later := NumeralsFrom(i + 1, n - 1, used);
      f, from := [Numeral(i)] + g, [i] + later;
      forall j | 0 <= j < n - 1 ensures g[j] != Numeral(i) {
        DifferentNumerals(i, later[j]);
      }
    }
  }

  lemma DifferentNumerals(i: nat, j: nat)
    requires i != j
    ensures Numeral(i) != Numeral(j)
  {
    NumeralValue(i);
    NumeralValue(j);
  }

  /** n short names outside used, all different. */
  lemma FreshNames(n: nat, used: set<string>) returns (f: seq<string>)
    ensures |f| == n && Unique(f) && SetOf(f) !! used
    ensures forall x :: x in f ==> Short(x, n + |used|)
  {
    var from;
    f, from := NumeralsFrom(0, n, used);
    forall x | x in f ensures Short(x, n + |used|) && x !in used {
      var j :| 0 <= j < n && f[j] == x;
      NumeralLength(from[j], n + |used|);
    }
  }
}
