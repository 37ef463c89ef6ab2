/**
 * The start-up decisions of `NewService` in the destinations package: the
 * mandatory reload interval and the dispatch on the destinations source
 * descriptor (HTTP URL, file path or inline JSON literal).
 */
module Sources {
  import opened Wrappers

  /** What `NewService` goes on to do after building the empty service. */
  datatype Plan =
    | ApplyConfigured          // a parsed `destinations` section is unmarshalled and applied once
    | WatchHTTP(url: string)   // reloaded on a timer from an HTTP(S) URL
    | WatchFile(path: string)  // reloaded on a timer from a local file
    | ApplyLiteral(payload: string)  // an inline JSON object, applied once
    | NotConfigured            // nothing configured: logged, service stays empty

  /** The errors `NewService` returns. */
  datatype StartupError =
    | ReloadIntervalMissing         // "server.destinations_reload_sec can't be empty"
    | UnknownSource(source: string) // "Unknown destination source: " + source

  const FileScheme := "file://"

  /** Go's `strings.HasPrefix`. */
  predicate HasPrefix(s: string, prefix: string)
  {
    prefix <= s
  }

  /** Go's `strings.HasSuffix`. */
  predicate HasSuffix(s: string, suffix: string)
  {
    |suffix| <= |s| && s[|s| - |suffix|..] == suffix
  }

  /** `pat` occurs in `s` starting at index `i`. */
  predicate OccursAt(s: string, pat: string, i: int)
  {
    0 <= i && i + |pat| <= |s| && s[i..i + |pat|] == pat
  }

  /** Go's `strings.Index`: the first index at which `pat` occurs in `s`, or -1. */
  function IndexOf(s: string, pat: string): (r: int)
    ensures r == -1 || OccursAt(s, pat, r)
    ensures forall j :: 0 <= j < (if r == -1 then |s| + 1 else r) ==> !OccursAt(s, pat, j)
    decreases |s|
  {
    if |s| < |pat| then -1
    else if pat <= s then 0
    else
      var k := IndexOf(s[1..], pat);
      assert forall j :: 1 <= j <= |s| && OccursAt(s, pat, j) ==> OccursAt(s[1..], pat, j - 1) by {
        forall j | 1 <= j <= |s| && OccursAt(s, pat, j) ensures OccursAt(s[1..], pat, j - 1) {
          assert s[1..][j - 1..j - 1 + |pat|] == s[j..j + |pat|];
        }
      }
      if k == -1 then -1
      else
        assert s[1..][k..k + |pat|] == s[k + 1..k + 1 + |pat|];
        k + 1
  }

  /** Go's `strings.Contains`. */
  predicate Contains(s: string, pat: string)
  {
    IndexOf(s, pat) >= 0
  }

  /** `Contains` holds exactly when `pat` occurs somewhere in `s`. */
  lemma ContainsOccurs(s: string, pat: string)
    ensures Contains(s, pat) <==> exists i :: OccursAt(s, pat, i)
  {
    if exists i :: OccursAt(s, pat, i) {
      var i :| OccursAt(s, pat, i);
      assert i < |s| + 1;
    }
  }

  /** Go's `strings.Replace(s, pat, repl, 1)` for a non-empty `pat`: the first occurrence is replaced by `repl`. */
  function ReplaceFirst(s: string, pat: string, repl: string): (r: string)
    requires |pat| > 0
    ensures !Contains(s, pat) ==> r == s
    ensures Contains(s, pat) ==> |r| == |s| - |pat| + |repl|
    ensures forall i :: OccursAt(s, pat, i) && (forall j :: 0 <= j < i ==> !OccursAt(s, pat, j)) ==>
              r == s[..i] + repl + s[i + |pat|..]
  {
    var i := IndexOf(s, pat);
    if i < 0 then s else s[..i] + repl + s[i + |pat|..]
  }

  /**
   * The source descriptor dispatch (only reached for a non-empty descriptor):
   * an `http://` or `https://` prefix is an HTTP source; otherwise containing
   * `file://` or starting with `/` is a file source, with the first `file://`
   * removed; otherwise text starting with `{` and ending with `}` is an inline
   * literal; anything else is an error naming the descriptor.
   */
  function ClassifySource(source: string): (r: Result<Plan, StartupError>)
    ensures r.Success? ==> r.value.WatchHTTP? || r.value.WatchFile? || r.value.ApplyLiteral?
    ensures (r.Success? && r.value.WatchHTTP?) <==> HasPrefix(source, "http://") || HasPrefix(source, "https://")
    ensures r.Success? && r.value.WatchHTTP? ==> r.value.url == source
    ensures (r.Success? && r.value.WatchFile?)
            <==> !HasPrefix(source, "http://") && !HasPrefix(source, "https://")
                 && (Contains(source, FileScheme) || HasPrefix(source, "/"))
    ensures r.Success? && r.value.WatchFile? ==> r.value.path == ReplaceFirst(source, FileScheme, "")
    ensures r.Success? && r.value.ApplyLiteral? ==> r.value.payload == source && HasPrefix(source, "{") && HasSuffix(source, "}")
    ensures r.Failure? <==> !HasPrefix(source, "http://") && !HasPrefix(source, "https://")
                            && !Contains(source, FileScheme) && !HasPrefix(source, "/")
                            && !(HasPrefix(source, "{") && HasSuffix(source, "}"))
    ensures r.Failure? ==> r.error == UnknownSource(source)
  {
    if HasPrefix(source, "http://") || HasPrefix(source, "https://") then
      Success(WatchHTTP(source))
    else if Contains(source, FileScheme) || HasPrefix(source, "/") then
      Success(WatchFile(ReplaceFirst(source, FileScheme, "")))
    else if HasPrefix(source, "{") && HasSuffix(source, "}") then
      Success(ApplyLiteral(source))
    else
      Failure(UnknownSource(source))
  }

  /**
   * `NewService` before it applies anything: a reload interval of 0 is an
   * error whatever else is configured; then a parsed `destinations` section
   * wins over a source descriptor, and an empty descriptor means nothing is
   * configured.
   */
  function StartupPlan(reloadSec: int, hasDestinations: bool, source: string): (r: Result<Plan, StartupError>)
    ensures reloadSec == 0 <==> r == Failure(ReloadIntervalMissing)
    ensures reloadSec != 0 && hasDestinations ==> r == Success(ApplyConfigured)
    ensures reloadSec != 0 && !hasDestinations && source == "" ==> r == Success(NotConfigured)
    ensures reloadSec != 0 && !hasDestinations && source != "" ==> r == ClassifySource(source)
  {
    if reloadSec == 0 then Failure(ReloadIntervalMissing)
    else if hasDestinations then Success(ApplyConfigured)
    else if source != "" then ClassifySource(source)
    else Success(NotConfigured)
  }

  /** A `file://` URL is watched at the path that follows the scheme. */
  lemma FileUrlPath(path: string)
    ensures ClassifySource(FileScheme + path) == Success(WatchFile(path))
  {
    var s := FileScheme + path;
    assert OccursAt(s, FileScheme, 0);
    assert s[0] == 'f';
    assert !HasPrefix(s, "http://") && !HasPrefix(s, "https://");
    assert IndexOf(s, FileScheme) == 0;
    assert ReplaceFirst(s, FileScheme, "") == s[7..];
    assert s[7..] == path;
  }

  /** An absolute path without `file://` in it is watched as it is. */
  lemma AbsolutePath(path: string)
    requires HasPrefix(path, "/") && !Contains(path, FileScheme)
    ensures ClassifySource(path) == Success(WatchFile(path))
  {
    assert !HasPrefix(path, "http://") && !HasPrefix(path, "https://") by {
      assert path[0] == '/';
    }
  }

  /**
   * The file test comes before the literal test: an inline JSON object that
   * mentions `file://` anywhere is taken for a file path, the object text
   * with its first `file://` cut out, and is never applied as a literal.
   */
  lemma LiteralMentioningFileScheme(source: string)
    requires HasPrefix(source, "{") && HasSuffix(source, "}") && Contains(source, FileScheme)
    ensures ClassifySource(source) == Success(WatchFile(ReplaceFirst(source, FileScheme, "")))
    ensures ClassifySource(source) != Success(ApplyLiteral(source))
  {
    assert !HasPrefix(source, "http://") && !HasPrefix(source, "https://") by {
      assert source[0] == '{';
    }
  }
}
