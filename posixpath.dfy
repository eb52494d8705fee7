/**
 * POSIX `os.path.split`, which both database managers use to turn the file
 * the user picked into the (directory, file name) pair they broadcast.
 */
module PosixPath {
  predicate AllSlashes(s: string)
  {
    forall k :: 0 <= k < |s| ==> s[k] == '/'
  }

  /** `p.rfind("/") + 1`: the length of the part up to and including the last slash. */
  function AfterLastSlash(p: string): (i: nat)
    ensures i <= |p|
    ensures i > 0 ==> p[i - 1] == '/'
    ensures forall k :: i <= k < |p| ==> p[k] != '/'
  {
    if p == [] then 0
    else if p[|p| - 1] == '/' then |p|
    else AfterLastSlash(p[..|p| - 1])
  }

  /** `s.rstrip("/")`. */
  function StripSlashes(s: string): (r: string)
    ensures |r| <= |s| && r == s[..|r|]
    ensures forall k :: |r| <= k < |s| ==> s[k] == '/'
    ensures r == [] || r[|r| - 1] != '/'
  {
    if s != [] && s[|s| - 1] == '/' then StripSlashes(s[..|s| - 1]) else s
  }

  /**
   * `os.path.split(p)`: the tail is everything after the last slash; the head
   * is everything before it, with its trailing slashes removed unless it is
   * made of slashes only.
   */
  function Split(p: string): (r: (string, string))
  {
    var i := AfterLastSlash(p);
    var head := p[..i];
    (if head != [] && !AllSlashes(head) then StripSlashes(head) else head, p[i..])
  }

  /**
   * The two parts put back together give the path again, with only slashes
   * between them: the tail holds no slash, and the head ends in no slash
   * unless it is the root.
   */
  lemma SplitRejoins(p: string)
    ensures var (head, tail) := Split(p);
      && |head| + |tail| <= |p|
      && p == head + p[|head|..|p| - |tail|] + tail
      && AllSlashes(p[|head|..|p| - |tail|])
      && (forall k :: 0 <= k < |tail| ==> tail[k] != '/')
      && (head == [] || AllSlashes(head) || head[|head| - 1] != '/')
      && (tail == p <==> forall k :: 0 <= k < |p| ==> p[k] != '/')
  {
    var i := AfterLastSlash(p);
    var (head, tail) := Split(p);
    assert tail == p[i..];
    assert p[..i] == head + p[|head|..i];
    assert p == p[..i] + p[i..];
  }
}
