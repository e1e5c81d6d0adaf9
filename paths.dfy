/**
  Decimal rendering of integers (Python's `str(n)` / f-string `{n}`), its
  inverse, POSIX `os.path.join` for two components, and the name the resume
  wrapper gives a checkpoint file.
 */
module Paths {

  /** The digit character for `d`. */
  function DigitChar(d: nat): (c: char)
    requires d < 10
    ensures '0' <= c <= '9'
  {
    ('0' as int + d) as char
  }

  /** The value of a digit character. */
  function DigitValue(c: char): nat
    requires IsDigit(c)
  {
    c as int - '0' as int
  }

  predicate IsDigit(c: char) {
    '0' <= c <= '9'
  }

  /** Decimal digits of `n`, most significant first, without leading zeros. */
  function NatToString(n: nat): (s: string)
    ensures |s| >= 1
    ensures forall i :: 0 <= i < |s| ==> IsDigit(s[i])
    ensures n >= 10 ==> |s| >= 2 && s[0] != '0'
    decreases n
  {
    if n < 10 then [DigitChar(n)] else NatToString(n / 10) + [DigitChar(n % 10)]
  }

  /** The number a string of decimal digits denotes (the inverse of `NatToString`). */
  function ParseNat(s: string): nat
    requires forall i :: 0 <= i < |s| ==> IsDigit(s[i])
  {
    if s == [] then 0 else ParseNat(s[..|s| - 1]) * 10 + DigitValue(s[|s| - 1])
  }

  /** Reading back the rendered digits gives the number. */
  lemma {:induction false} ParseNatToString(n: nat)
    ensures ParseNat(NatToString(n)) == n
    decreases n
  {
    var s := NatToString(n);
    if n >= 10 {
      assert s[..|s| - 1] == NatToString(n / 10);
      ParseNatToString(n / 10);
    }
  }

  /** `str(n)` for a Python int: a minus sign before the digits of a negative number. */
  function IntToString(n: int): (s: string)
    ensures |s| >= 1
    ensures n >= 0 ==> IsDigit(s[0])
    ensures n < 0 ==> s[0] == '-'
  {
    if n < 0 then "-" + NatToString(-n) else NatToString(n)
  }

  /** The inverse of `IntToString`. */
  function ParseInt(s: string): int
    requires |s| >= 1
    requires forall i :: 1 <= i < |s| ==> IsDigit(s[i])
    requires s[0] == '-' || IsDigit(s[0])
  {
    if s[0] == '-' then -(ParseNat(s[1..]) as int) else ParseNat(s)
  }

  /** `int(str(n)) == n`: the rendering loses nothing. */
  lemma ParseIntToString(n: int)
    ensures ParseInt(IntToString(n)) == n
  {
    var s := IntToString(n);
    if n < 0 {
      assert s[1..] == NatToString(-n);
      ParseNatToString(-n);
    } else {
      ParseNatToString(n);
    }
  }

  /** Distinct numbers are rendered as distinct strings. */
  lemma IntToStringInjective(a: int, b: int)
    requires IntToString(a) == IntToString(b)
    ensures a == b
  {
    ParseIntToString(a);
    ParseIntToString(b);
  }

  /** A name that starts at the root, which `os.path.join` keeps on its own. */
  predicate IsAbsolute(name: string) {
    |name| > 0 && name[0] == '/'
  }

  /** `os.path.join` puts a '/' after a directory that is non-empty and does not end in one. */
  predicate NeedsSeparator(dir: string) {
    dir != [] && dir[|dir| - 1] != '/'
  }

  /** POSIX `os.path.join(dir, name)` for two components. */
  function Join(dir: string, name: string): string {
    if IsAbsolute(name) then name
    else if NeedsSeparator(dir) then dir + "/" + name
    else dir + name
  }

  /**
    The shape of a joined path: the name always ends it; an absolute name is
    the whole path; a relative name follows the directory, with one '/'
    between them exactly when the directory needs one.
   */
  lemma JoinShape(dir: string, name: string)
    ensures var p := Join(dir, name);
      && |name| <= |p| && p[|p| - |name|..] == name
      && (IsAbsolute(name) ==> p == name)
      && (!IsAbsolute(name) ==> |dir| <= |p| && p[..|dir|] == dir)
      && (!IsAbsolute(name) ==> |p| == |dir| + (if NeedsSeparator(dir) then 1 else 0) + |name|)
      && (!IsAbsolute(name) && NeedsSeparator(dir) ==> p[|dir|] == '/')
  {
  }

  /** Joining the same directory with two relative names keeps them apart. */
  lemma JoinInjective(dir: string, a: string, b: string)
    requires |a| > 0 && a[0] != '/' && |b| > 0 && b[0] != '/'
    requires Join(dir, a) == Join(dir, b)
    ensures a == b
  {
    var p := Join(dir, a);
    JoinShape(dir, a);
    JoinShape(dir, b);
    assert |a| == |b|;
    assert a == p[|p| - |a|..] == b;
  }

  const CheckpointPrefix: string := "checkpoint_epoch_"
  const CheckpointSuffix: string := ".pt"

  /** `f"checkpoint_epoch_{epoch}.pt"`. */
  function CheckpointName(epoch: int): (name: string)
    ensures |name| > 0 && name[0] == 'c'
  {
    CheckpointPrefix + IntToString(epoch) + CheckpointSuffix
  }

  /** The epoch can be read back from a checkpoint file name. */
  lemma CheckpointNameInjective(a: int, b: int)
    requires CheckpointName(a) == CheckpointName(b)
    ensures a == b
  {
    var na, nb := CheckpointName(a), CheckpointName(b);
    var p, s := |CheckpointPrefix|, |CheckpointSuffix|;
    assert na[p..|na| - s] == IntToString(a);
    assert nb[p..|nb| - s] == IntToString(b);
    IntToStringInjective(a, b);
  }

  /** Checkpoints of different epochs in the same directory are different files. */
  lemma CheckpointPathsDistinct(dir: string, a: int, b: int)
    requires a != b
    ensures Join(dir, CheckpointName(a)) != Join(dir, CheckpointName(b))
  {
    if Join(dir, CheckpointName(a)) == Join(dir, CheckpointName(b)) {
      JoinInjective(dir, CheckpointName(a), CheckpointName(b));
      CheckpointNameInjective(a, b);
    }
  }

  /** Two paths known to be the checkpoints of different epochs in one directory differ. */
  lemma CheckpointFilesDistinct(x: string, y: string, dir: string, a: int, b: int)
    requires a != b && x == Join(dir, CheckpointName(a)) && y == Join(dir, CheckpointName(b))
    ensures x != y
  {
    CheckpointPathsDistinct(dir, a, b);
  }

  /** The file names of the example resumed run: epochs 3 and 4. */
  lemma CheckpointNameExamples()
    ensures CheckpointName(3) == "checkpoint_epoch_3.pt"
    ensures CheckpointName(4) == "checkpoint_epoch_4.pt"
    ensures CheckpointName(12) == "checkpoint_epoch_12.pt"
  {
    assert NatToString(12) == NatToString(1) + [DigitChar(2)];
  }
}
