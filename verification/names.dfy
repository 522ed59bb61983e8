/**
 * File-name tests used by the title sweep: ASCII lower-casing, the `.bin` / `.cue`
 * suffix tests, the list comprehensions that count them, and Python's
 * `os.path.splitext` on a bare file name.
 */
module Names {

  /** `str.lower()` restricted to ASCII letters. */
  function LowerChar(c: char): char {
    if 'A' <= c <= 'Z' then (c as int + 32) as char else c
  }

  function Lower(s: string): (r: string)
    ensures |r| == |s|
    ensures forall i :: 0 <= i < |s| ==> r[i] == LowerChar(s[i])
  {
    seq(|s|, i requires 0 <= i < |s| => LowerChar(s[i]))
  }

  predicate HasSuffix(s: string, suffix: string) {
    |suffix| <= |s| && s[|s| - |suffix|..] == suffix
  }

  /** `name.lower().endswith(ext)`. */
  predicate HasExt(name: string, ext: string) {
    HasSuffix(Lower(name), ext)
  }

  /** `name.lower().endswith(".bin")`: a track file. */
  predicate IsBin(name: string) {
    HasExt(name, ".bin")
  }

  /** `name.lower().endswith(".cue")`: a cue sheet. */
  predicate IsCue(name: string) {
    HasExt(name, ".cue")
  }

  /** `name.lower().endswith(('.cue', '.bin'))`: a name the backup and the rollback act on. */
  predicate IsTrack(name: string) {
    IsBin(name) || IsCue(name)
  }

  /** True of `c` and of its upper-case form, and of nothing else. */
  predicate SameLetter(c: char, lower: char)
    requires 'a' <= lower <= 'z'
  {
    c == lower || c as int == lower as int - 32
  }

  /**
   * Independent reading of the suffix tests: the last four characters are a dot
   * followed by the three letters in either case.
   */
  lemma SuffixTestsIgnoreCase(name: string)
    ensures IsBin(name) <==> (
      |name| >= 4 && name[|name| - 4] == '.' &&
      SameLetter(name[|name| - 3], 'b') && SameLetter(name[|name| - 2], 'i') && SameLetter(name[|name| - 1], 'n'))
    ensures IsCue(name) <==> (
      |name| >= 4 && name[|name| - 4] == '.' &&
      SameLetter(name[|name| - 3], 'c') && SameLetter(name[|name| - 2], 'u') && SameLetter(name[|name| - 1], 'e'))
  {
  }

  /** A name is never both a track file and a cue sheet. */
  lemma BinAndCueAreDisjoint(name: string)
    ensures !(IsBin(name) && IsCue(name))
  {
  }

  predicate NoDuplicates(listing: seq<string>) {
    forall i, j :: 0 <= i < j < |listing| ==> listing[i] != listing[j]
  }

  /** `[f for f in listing if f.lower().endswith(ext)]`. */
  function Select(listing: seq<string>, ext: string): (r: seq<string>)
    ensures |r| <= |listing|
    ensures forall x :: x in r <==> x in listing && HasExt(x, ext)
    ensures forall i :: 0 <= i < |r| ==> HasExt(r[i], ext)
  {
    if listing == [] then []
    else if HasExt(listing[0], ext) then [listing[0]] + Select(listing[1..], ext)
    else Select(listing[1..], ext)
  }

  /**
   * `len([f for f in listing if f.lower().endswith(ext)])` over a listing without
   * repeated names (what `os.listdir` returns) is the size of the set of names kept.
   */
  lemma {:induction false} SelectCountsSubset(listing: seq<string>, ext: string)
    requires NoDuplicates(listing)
    ensures |Select(listing, ext)| == |set x | x in listing && HasExt(x, ext)|
  {
    if listing != [] {
      var rest := listing[1..];
      assert NoDuplicates(rest) by {
        forall i, j | 0 <= i < j < |rest| ensures rest[i] != rest[j] {
          assert rest[i] == listing[i + 1] && rest[j] == listing[j + 1];
        }
      }
      SelectCountsSubset(rest, ext);
      var all := set x | x in listing && HasExt(x, ext);
      var tail := set x | x in rest && HasExt(x, ext);
      assert listing[0] !in rest by {
        forall j | 0 <= j < |rest| ensures rest[j] != listing[0] {
          assert rest[j] == listing[j + 1];
        }
      }
      if HasExt(listing[0], ext) {
        assert all == tail + {listing[0]};
        assert listing[0] !in tail;
      } else {
        assert all == tail;
      }
    }
  }

  /** Python's `str.rfind(c)`: the last index of `c` in `s`, or -1. */
  function LastIndexOf(s: string, c: char): (r: int)
    ensures -1 <= r < |s|
    ensures r >= 0 ==> s[r] == c
    ensures forall i :: r < i < |s| ==> s[i] != c
  {
    if s == [] then -1
    else if s[|s| - 1] == c then |s| - 1
    else LastIndexOf(s[..|s| - 1], c)
  }

  /**
   * `os.path.splitext` on a name with no path separator: the extension starts at
   * the last dot, unless everything before that dot is dots (a leading dot does
   * not start an extension), in which case there is none.
   */
  function SplitExt(p: string): (string, string) {
    var dot := LastIndexOf(p, '.');
    if dot >= 0 && exists i :: 0 <= i < dot && p[i] != '.' then (p[..dot], p[dot..]) else (p, "")
  }

  /**
   * What `os.path.splitext` promises: root and extension put back together give
   * the name; a non-empty extension is one dot followed by no other dot, and its
   * root is not all dots; there is no extension exactly when no dot follows a
   * character other than a dot.
   */
  lemma SplitExtMeaning(p: string)
    ensures var r := SplitExt(p);
      && r.0 + r.1 == p
      && (r.1 != "" ==> r.1[0] == '.' && forall i :: 1 <= i < |r.1| ==> r.1[i] != '.')
      && (r.1 != "" ==> exists i :: 0 <= i < |r.0| && r.0[i] != '.')
      && (r.1 == "" <==> forall i, j :: 0 <= j < i < |p| && p[i] == '.' ==> p[j] == '.')
  {
  }

  /**
   * The stem `os.path.splitext` gives a cue-sheet name: the name without its
   * four-character extension, unless only dots precede it.
   */
  lemma {:induction false} CueStem(name: string)
    requires IsCue(name)
    ensures (exists i :: 0 <= i < |name| - 4 && name[i] != '.') ==> SplitExt(name) == (name[..|name| - 4], name[|name| - 4..])
    ensures (forall i :: 0 <= i < |name| - 4 ==> name[i] == '.') ==> SplitExt(name) == (name, "")
  {
    var n := |name|;
    var low := Lower(name);
    assert low[n - 4] == ".cue"[0];
    assert name[n - 4] == '.';
    assert low[n - 3] == 'c' && low[n - 2] == 'u' && low[n - 1] == 'e' by {
      assert low[n - 3] == ".cue"[1] && low[n - 2] == ".cue"[2] && low[n - 1] == ".cue"[3];
    }
    assert name[n - 3] != '.' && name[n - 2] != '.' && name[n - 1] != '.';
    var dot := LastIndexOf(name, '.');
    assert dot == n - 4;
    var r := SplitExt(name);
    if exists i :: 0 <= i < n - 4 && name[i] != '.' {
      assert r == (name[..dot], name[dot..]);
    } else {
      assert r == (name, "");
    }
  }
}
