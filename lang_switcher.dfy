/**
 * The locale switcher of components/lang-switcher.tsx: the label table, the
 * current-locale default and the path rewrite done when a new locale is
 * chosen.
 */
module LangSwitcher {
  import opened Options
  import opened Segments

  /** The display name of each offered locale. */
  const Labels: map<string, string> := map["en" := "English", "ru" := "Русский", "uz" := "O‘zbekcha"]

  /** The values of the select's items, in the order they are listed. */
  const OfferedLocales: seq<string> := ["en", "ru", "uz"]

  /** The locale shown as selected: the route's `lang` parameter, or "en" when it is missing or empty. */
  function CurrentLocale(langParam: Option<string>): (current: string)
    ensures current != ""
    ensures langParam.None? ==> current == "en"
    ensures langParam.Some? && langParam.value != "" ==> current == langParam.value
    ensures langParam.Some? && langParam.value == "" ==> current == "en"
  {
    match langParam
    case Some(lang) => if lang != "" then lang else "en"
    case None => "en"
  }

  /** Every offered locale has a label, the label table has no other key, and the default is offered. */
  lemma LabelsCoverOfferedLocales()
    ensures Labels.Keys == set l | l in OfferedLocales
    ensures CurrentLocale(None) in Labels
  {
  }

  /**
   * Where the switcher navigates, stated on positions rather than pieces:
   * everything up to and including the first '/', then `next`, then
   * everything from the second '/' on. A path without '/' is kept, and the
   * empty path becomes "/" + `next`.
   */
  function LocalizedPath(pathname: string, next: string): string
  {
    var k := IndexOf(pathname, '/');
    if k == |pathname| then
      (if pathname == "" then "/" + next else pathname)
    else
      var rest := pathname[k + 1..];
      pathname[..k + 1] + next + rest[IndexOf(rest, '/')..]
  }

  /**
   * `onChange`: split the path on '/', overwrite piece 1 with the new locale,
   * join the pieces again and fall back to "/" + `next` when that is empty.
   */
  method OnChange(pathname: string, next: string) returns (nextPath: string)
    ensures nextPath == LocalizedPath(pathname, next)
  {
    var segments := Split(pathname, '/');
    if |segments| > 1 {
      segments := segments[1 := next];
    }
    nextPath := Join(segments, '/');
    if nextPath == "" {
      nextPath := "/" + next;
    }
    RewriteMatchesPositions(pathname, next);
  }

  /** The pieces-based rewrite of `OnChange` agrees with `LocalizedPath`. */
  lemma RewriteMatchesPositions(pathname: string, next: string)
    ensures var segments := Split(pathname, '/');
      var joined := Join(if |segments| > 1 then segments[1 := next] else segments, '/');
      (if joined == "" then "/" + next else joined) == LocalizedPath(pathname, next)
  {
    IndexOfAbsent(pathname, '/');
    if '/' !in pathname {
      SplitNoSeparator(pathname, '/');
    } else {
      RewriteWithSlash(pathname, next);
    }
  }

  /** A path holding '/' has at least two pieces, and replacing piece 1 gives `LocalizedPath`, which is not empty. */
  lemma RewriteWithSlash(pathname: string, next: string)
    requires '/' in pathname
    ensures var segments := Split(pathname, '/');
      |segments| > 1 &&
      Join(segments[1 := next], '/') == LocalizedPath(pathname, next) != ""
  {
    var k := IndexOf(pathname, '/');
    var rest := pathname[k + 1..];
    var head, tail := PiecesAroundOne(pathname, next);
    SplitAtFirst(pathname, '/');
    RewriteRest(head, rest, next);
  }

  /** Piece 1 replaced in `[head]` followed by the pieces of `rest`. */
  lemma RewriteRest(head: string, rest: string, next: string)
    ensures var segments := [head] + Split(rest, '/');
      |segments| > 1 &&
      Join(segments[1 := next], '/') == head + "/" + next + rest[IndexOf(rest, '/')..]
  {
    var pieces := Split(rest, '/');
    var segments := [head] + pieces;
    assert segments[1 := next] == [head, next] + pieces[1..];
    JoinTwoThen(head, next, pieces[1..], '/');
    IndexOfAbsent(rest, '/');
    var j := IndexOf(rest, '/');
    if '/' in rest {
      JoinAfterFirst(rest, '/');
      SliceAround(rest, j);
    } else {
      SplitNoSeparator(rest, '/');
      assert rest[j..] == "";
    }
  }

  /** A path "/" + s1 + rest keeps "/" and `rest` and gets `next` in place of s1. */
  lemma ReplacesOnlyFirstSegment(s1: string, rest: string, next: string)
    requires '/' !in s1
    requires rest == "" || rest[0] == '/'
    ensures LocalizedPath("/" + s1 + rest, next) == "/" + next + rest
  {
    ReplacePieceOne("", s1, rest, next);
    assert "" + "/" + s1 + rest == "/" + s1 + rest;
    assert "" + "/" + next + rest == "/" + next + rest;
  }

  /** A path without '/' is kept, except the empty path, which becomes "/" + `next`. */
  lemma PathWithoutSlash(pathname: string, next: string)
    requires '/' !in pathname
    ensures LocalizedPath(pathname, next) == if pathname == "" then "/" + next else pathname
  {
    IndexOfAbsent(pathname, '/');
  }

  /**
   * Piece by piece, the rewritten path is the old one with piece 1 replaced;
   * the empty path gains the pieces "" and `next`. The number of pieces of a
   * non-empty path does not change.
   */
  lemma SegmentsAfterRewrite(pathname: string, next: string)
    requires '/' !in next
    ensures var segments := Split(pathname, '/');
      Split(LocalizedPath(pathname, next), '/') ==
        if pathname == "" then ["", next]
        else if |segments| > 1 then segments[1 := next]
        else segments
  {
    var segments := Split(pathname, '/');
    if pathname == "" {
      PathWithoutSlash(pathname, next);
      SplitAtSeparator("", next, '/');
      SplitNoSeparator(next, '/');
      assert "" + ['/'] + next == "/" + next;
    } else if '/' in pathname {
      RewriteWithSlash(pathname, next);
      var updated := segments[1 := next];
      assert NoSeparator(updated, '/');
      SplitJoin(updated, '/');
    } else {
      PathWithoutSlash(pathname, next);
      SplitNoSeparator(pathname, '/');
    }
  }

  /** After switching to `a` and then to `b`, the path is the one a direct switch to `b` gives. */
  lemma LastSwitchWins(pathname: string, a: string, b: string)
    requires '/' !in a
    ensures LocalizedPath(LocalizedPath(pathname, a), b) == LocalizedPath(pathname, b)
  {
    if '/' !in pathname {
      PathWithoutSlash(pathname, a);
      PathWithoutSlash(pathname, b);
      if pathname == "" {
        ReplacesOnlyFirstSegment(a, "", b);
        assert "/" + a + "" == "/" + a;
      }
    } else {
      LastSwitchWinsWithSlash(pathname, a, b);
    }
  }

  /** `LastSwitchWins` for a path holding '/': the prefix and the tail around piece 1 are kept. */
  lemma LastSwitchWinsWithSlash(pathname: string, a: string, b: string)
    requires '/' !in a
    requires '/' in pathname
    ensures LocalizedPath(LocalizedPath(pathname, a), b) == LocalizedPath(pathname, b)
  {
    var head, tail := PiecesAroundOne(pathname, a);
    var _, _ := PiecesAroundOne(pathname, b);
    ReplacePieceOne(head, a, tail, b);
  }

  /** A path holding '/' is a slash-free head, "/", piece 1 and a tail that is empty or starts with '/'. */
  lemma PiecesAroundOne(pathname: string, next: string) returns (head: string, tail: string)
    requires '/' in pathname
    ensures head == pathname[..IndexOf(pathname, '/')]
    ensures tail == pathname[IndexOf(pathname, '/') + 1..][IndexOf(pathname[IndexOf(pathname, '/') + 1..], '/')..]
    ensures '/' !in head
    ensures tail == "" || tail[0] == '/'
    ensures LocalizedPath(pathname, next) == head + "/" + next + tail
  {
    IndexOfAbsent(pathname, '/');
    var k := IndexOf(pathname, '/');
    var rest := pathname[k + 1..];
    head := pathname[..k];
    tail := rest[IndexOf(rest, '/')..];
    SliceAround(pathname, k);
    IndexOfAbsent(rest, '/');
  }

  /** Rewriting `head + "/" + s1 + rest` replaces s1 and keeps the rest. */
  lemma ReplacePieceOne(head: string, s1: string, rest: string, next: string)
    requires '/' !in head && '/' !in s1
    requires rest == "" || rest[0] == '/'
    ensures LocalizedPath(head + "/" + s1 + rest, next) == head + "/" + next + rest
  {
    assert head + "/" + s1 + rest == head + "/" + (s1 + rest);
    CutAtFirstSlash(head, s1 + rest);
    PieceOneEnd(s1, rest);
  }

  /** In `head + "/" + tail` with a slash-free head, the first '/' is the one after `head`. */
  lemma CutAtFirstSlash(head: string, tail: string)
    requires '/' !in head
    ensures var p := head + "/" + tail;
      IndexOf(p, '/') == |head| && p[..|head| + 1] == head + "/" && p[|head| + 1..] == tail
  {
    var p := head + "/" + tail;
    assert p == head + ("/" + tail);
    IndexOfAppend(head, "/" + tail, '/');
  }

  /** Piece 1 of `s1 + rest` ends where `rest` starts. */
  lemma PieceOneEnd(s1: string, rest: string)
    requires '/' !in s1
    requires rest == "" || rest[0] == '/'
    ensures (s1 + rest)[IndexOf(s1 + rest, '/')..] == rest
  {
    IndexOfAppend(s1, rest, '/');
    if rest != "" {
      assert IndexOf(rest, '/') == 0;
    }
    assert (s1 + rest)[|s1|..] == rest;
  }

  /** Switching to the same locale twice gives the path of a single switch. */
  lemma SwitchIdempotent(pathname: string, next: string)
    requires '/' !in next
    ensures LocalizedPath(LocalizedPath(pathname, next), next) == LocalizedPath(pathname, next)
  {
    LastSwitchWins(pathname, next, next);
  }
}
