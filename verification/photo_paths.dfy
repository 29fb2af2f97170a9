/**
 * The string work of the photo service: file-name sanitisation, the storage
 * path of an original, and the path of each thumbnail rendition.
 */
module PhotoPaths {
  import opened Strings

  // ---------------------------------------------------------------------------
  // Sanitisation: every character outside [a-zA-Z0-9.-] becomes '_'
  // ---------------------------------------------------------------------------

  predicate IsKeptChar(c: char) {
    ('a' <= c <= 'z') || ('A' <= c <= 'Z') || ('0' <= c <= '9') || c == '.' || c == '-'
  }

  function SanitizeChar(c: char): char {
    if IsKeptChar(c) then c else '_'
  }

  function SanitizeFileName(name: string): string {
    if name == [] then [] else [SanitizeChar(name[0])] + SanitizeFileName(name[1..])
  }

  /** The sanitised name has the same length; allowed characters stay, each other one becomes '_'. */
  lemma {:induction false} SanitizeCharwise(name: string)
    ensures |SanitizeFileName(name)| == |name|
    ensures forall i :: 0 <= i < |name| ==>
      SanitizeFileName(name)[i] == (if IsKeptChar(name[i]) then name[i] else '_')
  {
    if name != [] {
      SanitizeCharwise(name[1..]);
      var r := SanitizeFileName(name);
      assert r == [SanitizeChar(name[0])] + SanitizeFileName(name[1..]);
      forall i | 0 <= i < |name|
        ensures r[i] == (if IsKeptChar(name[i]) then name[i] else '_')
      {
        if i > 0 {
          assert r[i] == SanitizeFileName(name[1..])[i - 1];
        }
      }
    }
  }

  /** A sanitised name holds only allowed characters and underscores. */
  lemma SanitizedCharsAreSafe(name: string)
    ensures forall i :: 0 <= i < |SanitizeFileName(name)| ==>
      IsKeptChar(SanitizeFileName(name)[i]) || SanitizeFileName(name)[i] == '_'
    ensures '/' !in SanitizeFileName(name)
  {
    SanitizeCharwise(name);
  }

  /** Sanitising twice is sanitising once. */
  lemma SanitizeIdempotent(name: string)
    ensures SanitizeFileName(SanitizeFileName(name)) == SanitizeFileName(name)
  {
    var once := SanitizeFileName(name);
    SanitizeCharwise(name);
    SanitizeCharwise(once);
  }

  /** A name made only of allowed characters is left as it is. */
  lemma SanitizeKeepsSafeNames(name: string)
    requires forall i :: 0 <= i < |name| ==> IsKeptChar(name[i])
    ensures SanitizeFileName(name) == name
  {
    SanitizeCharwise(name);
  }

  // ---------------------------------------------------------------------------
  // Storage path of an original: "<userId>/<timestamp>-<sanitised name>"
  // ---------------------------------------------------------------------------

  function StoragePath(userId: string, timestamp: nat, fileName: string): string {
    userId + "/" + NatToDecimal(timestamp) + "-" + SanitizeFileName(fileName)
  }

  /**
   * The path starts with the owner's directory, and no '/' follows it: the
   * timestamp and the sanitised name stay in that one directory. The name
   * is recoverable as the path's suffix.
   */
  lemma StoragePathLayout(userId: string, timestamp: nat, fileName: string)
    ensures var p := StoragePath(userId, timestamp, fileName);
      && |p| == |userId| + 2 + |NatToDecimal(timestamp)| + |fileName|
      && p[..|userId| + 1] == userId + "/"
      && (forall i :: |userId| < i < |p| ==> p[i] != '/')
      && p[|p| - |fileName|..] == SanitizeFileName(fileName)
  {
    var p := StoragePath(userId, timestamp, fileName);
    var digits, safe := NatToDecimal(timestamp), SanitizeFileName(fileName);
    SanitizeCharwise(fileName);
    SanitizedCharsAreSafe(fileName);
    assert p == (userId + "/") + digits + "-" + safe;
    forall i | |userId| < i < |p| ensures p[i] != '/' {
      if i < |userId| + 1 + |digits| {
        assert p[i] == digits[i - |userId| - 1];
        assert IsDigitChar(digits[i - |userId| - 1]);
      } else if i > |userId| + 1 + |digits| {
        assert p[i] == safe[i - |userId| - 2 - |digits|];
      }
    }
  }

  /** Users whose ids hold no '/' never share a storage path. */
  lemma StoragePathsSeparateUsers(u1: string, u2: string, t1: nat, t2: nat, n1: string, n2: string)
    requires '/' !in u1 && '/' !in u2 && u1 != u2
    ensures StoragePath(u1, t1, n1) != StoragePath(u2, t2, n2)
  {
    var p1, p2 := StoragePath(u1, t1, n1), StoragePath(u2, t2, n2);
    StoragePathLayout(u1, t1, n1);
    StoragePathLayout(u2, t2, n2);
    if |u1| < |u2| {
      assert p1[|u1|] == '/';
      assert p2[|u1|] == u2[|u1|] != '/';
    } else if |u2| < |u1| {
      assert p2[|u2|] == '/';
      assert p1[|u2|] == u1[|u2|] != '/';
    } else {
      assert p1[..|u1|] == u1 && p2[..|u1|] == u2;
    }
  }

  /**
   * One user's uploads at different timestamps never share a storage path:
   * the timestamp's digits end at the first '-' after the user's directory,
   * and the digits determine the timestamp.
   */
  lemma StoragePathsSeparateTimes(u: string, t1: nat, t2: nat, n1: string, n2: string)
    requires t1 != t2
    ensures StoragePath(u, t1, n1) != StoragePath(u, t2, n2)
  {
    var d1, d2 := NatToDecimal(t1), NatToDecimal(t2);
    var s1, s2 := SanitizeFileName(n1), SanitizeFileName(n2);
    var r1, r2 := d1 + "-" + s1, d2 + "-" + s2;
    var p1, p2 := StoragePath(u, t1, n1), StoragePath(u, t2, n2);
    assert p1 == (u + "/") + r1 && p2 == (u + "/") + r2;
    if p1 == p2 {
      assert r1 == p1[|u| + 1..] == p2[|u| + 1..] == r2;
      DigitsThenDash(d1, s1);
      DigitsThenDash(d2, s2);
      assert d1 == r1[..|d1|] == r2[..|d2|] == d2;
      DecimalRoundTrip(t1);
      DecimalRoundTrip(t2);
    }
  }

  /** In digits followed by "-", the first '-' comes right after the digits. */
  lemma DigitsThenDash(digits: string, rest: string)
    requires AllDigits(digits)
    ensures (digits + "-" + rest)[|digits|] == '-'
    ensures forall i :: 0 <= i < |digits| ==> (digits + "-" + rest)[i] != '-'
  {
    forall i | 0 <= i < |digits| ensures (digits + "-" + rest)[i] != '-' {
      assert (digits + "-" + rest)[i] == digits[i];
    }
  }

  // ---------------------------------------------------------------------------
  // Thumbnail paths: the last extension is replaced by "_<size>.jpg"
  // ---------------------------------------------------------------------------

  datatype ThumbSize = Thumb | Preview | Web {
    /** The size's name, as it appears in a thumbnail path. */
    function Name(): string {
      match this
      case Thumb => "thumb"
      case Preview => "preview"
      case Web => "web"
    }
  }

  /** The renditions made for every upload, in the order they are attempted. */
  const ThumbnailSizes: seq<ThumbSize> := [Thumb, Preview, Web]

  /** The position of the last `c` in `s`, or -1 when there is none. */
  function LastIndexOf(s: string, c: char): (i: int)
    ensures -1 <= i < |s|
    ensures i >= 0 ==> s[i] == c
    ensures forall j :: i < j < |s| ==> s[j] != c
  {
    if s == [] then -1
    else if s[|s| - 1] == c then |s| - 1
    else LastIndexOf(s[..|s| - 1], c)
  }

  /**
   * `i` is where the pattern "a '.' followed by one or more non-'.'
   * characters up to the end" matches `path`. At most one position can.
   */
  predicate ExtensionAt(path: string, i: int) {
    0 <= i < |path| - 1 && path[i] == '.' && forall j :: i < j < |path| ==> path[j] != '.'
  }

  predicate HasExtension(path: string) {
    exists i :: 0 <= i < |path| && ExtensionAt(path, i)
  }

  function ThumbnailSuffix(size: ThumbSize): string {
    "_" + size.Name() + ".jpg"
  }

  /** The path of a rendition of the original at `path`. */
  function ThumbnailPath(path: string, size: ThumbSize): (r: string)
    ensures forall i :: ExtensionAt(path, i) ==> r == path[..i] + ThumbnailSuffix(size)
    ensures !HasExtension(path) ==> r == path
  {
    var i := LastIndexOf(path, '.');
    if 0 <= i < |path| - 1 then
      assert ExtensionAt(path, i);
      path[..i] + ThumbnailSuffix(size)
    else
      path
  }

  /** A path that ends in '.' has no extension to replace. */
  lemma TrailingDotKeepsPath(path: string, size: ThumbSize)
    requires |path| > 0 && path[|path| - 1] == '.'
    ensures ThumbnailPath(path, size) == path
  {
  }

  /**
   * With an extension, the three renditions get three different paths, none
   * of them the original's; without one, every rendition targets the
   * original's own path.
   */
  lemma {:induction false} ThumbnailPathsDistinct(path: string, s1: ThumbSize, s2: ThumbSize)
    ensures HasExtension(path) ==>
      ThumbnailPath(path, s1) != path &&
      (s1 != s2 ==> ThumbnailPath(path, s1) != ThumbnailPath(path, s2))
    ensures !HasExtension(path) ==> ThumbnailPath(path, s1) == path
  {
    if HasExtension(path) {
      var i :| ExtensionAt(path, i);
      var t1, t2 := ThumbnailPath(path, s1), ThumbnailPath(path, s2);
      assert t1 == path[..i] + ThumbnailSuffix(s1);
      assert t1[i] == '_' && path[i] == '.';
      if s1 != s2 {
        assert t2 == path[..i] + ThumbnailSuffix(s2);
        assert t1[i + 1] == s1.Name()[0] && t2[i + 1] == s2.Name()[0];
      }
    }
  }
}
