/** Route keys: the query is cut off and long identifiers after a slash are replaced. */
module RouteKeys {
  import opened Collections

  predicate IsIdChar(c: char) {
    '0' <= c <= '9' || 'a' <= c <= 'f' || 'A' <= c <= 'F' || c == '-'
  }

  /** The characters of an identifier: hexadecimal digits of either case, and the hyphen. */
  lemma IdChars(c: char)
    ensures IsIdChar(c) <==> c in "0123456789abcdefABCDEF-"
  {
    assert "0123456789abcdefABCDEF-" == ['0', '1', '2', '3', '4', '5', '6', '7', '8', '9',
      'a', 'b', 'c', 'd', 'e', 'f', 'A', 'B', 'C', 'D', 'E', 'F', '-'];
  }

  /** The length of the identifier a text begins with. */
  function RunLength(s: string): (n: nat)
    ensures n <= |s| && (forall i :: 0 <= i < n ==> IsIdChar(s[i])) && (n < |s| ==> !IsIdChar(s[n]))
  {
    if s == "" || !IsIdChar(s[0]) then 0 else 1 + RunLength(s[1..])
  }

  function CutQuery(s: string): (cut: string)
    ensures cut <= s && '?' !in cut && (cut == s || s[|cut|] == '?')
  {
    if s == "" || s[0] == '?' then "" else [s[0]] + CutQuery(s[1..])
  }

  /** The length of the match a text begins with: a slash and all of a long identifier, or nothing. */
  function Match(s: string): (n: nat)
    ensures n <= |s|
  {
    if s != "" && s[0] == '/' && RunLength(s[1..]) >= 6 then 1 + RunLength(s[1..]) else 0
  }

  function ReplaceIds(s: string): string {
    if s == "" then ""
    else if Match(s) > 0 then "/:id" + ReplaceIds(s[Match(s)..])
    else [s[0]] + ReplaceIds(s[1..])
  }

  function NormalizeRoute(route: Option<string>): string {
    if route.None? || route.value == "" then "unknown" else ReplaceIds(CutQuery(route.value))
  }

  /** No slash is followed by six identifier characters. */
  predicate NoIds(s: string) {
    forall i :: 0 <= i < |s| - 6 && s[i] == '/' ==> exists j :: i < j <= i + 6 && !IsIdChar(s[j])
  }

  lemma ShortRun(s: string, i: nat)
    requires i < |s| && s[i] == '/'
    ensures RunLength(s[i + 1..]) < 6 <==> (i < |s| - 6 ==> exists j :: i < j <= i + 6 && !IsIdChar(s[j]))
  {
    var rest := s[i + 1..];
    var n := RunLength(rest);
    if n < 6 && i < |s| - 6 {
      assert !IsIdChar(s[i + 1 + n]);
    }
    if n >= 6 {
      forall j | i < j <= i + 6 ensures IsIdChar(s[j]) { assert s[j] == rest[j - i - 1]; }
    }
  }

  lemma NoIdsTail(s: string)
    requires s != ""
    ensures NoIds(s) <==> (s[0] == '/' ==> RunLength(s[1..]) < 6) && NoIds(s[1..])
  {
    if s[0] == '/' { ShortRun(s, 0); }
    if NoIds(s) {
      forall i | 0 <= i < |s[1..]| - 6 && s[1..][i] == '/' ensures exists j :: i < j <= i + 6 && !IsIdChar(s[1..][j]) {
        assert s[i + 1] == '/';
        var j :| i + 1 < j <= i + 7 && !IsIdChar(s[j]);
        assert !IsIdChar(s[1..][j - 1]);
      }
    }
    if (s[0] == '/' ==> RunLength(s[1..]) < 6) && NoIds(s[1..]) {
      forall i | 0 <= i < |s| - 6 && s[i] == '/' ensures exists j :: i < j <= i + 6 && !IsIdChar(s[j]) {
        if i > 0 {
          assert s[1..][i - 1] == '/';
          var j :| i - 1 < j <= i + 5 && !IsIdChar(s[1..][j]);
          assert !IsIdChar(s[j + 1]);
        }
      }
    }
  }

  /** Replacement never lengthens the identifier a text begins with. */
  lemma {:induction false} ReplacedRun(s: string)
    ensures RunLength(ReplaceIds(s)) == RunLength(s)
  {
    if s != "" && IsIdChar(s[0]) { ReplacedRun(s[1..]); }
  }

  lemma NoIdsCons(c: char, s: string)
    requires NoIds(s) && (c == '/' ==> RunLength(s) < 6)
    ensures NoIds([c] + s)
  {
    assert ([c] + s)[1..] == s;
    NoIdsTail([c] + s);
  }

  lemma PlaceholderIsClean(s: string)
    requires NoIds(s)
    ensures NoIds("/:id" + s)
  {
    var d := ['d'] + s;
    var i := ['i'] + d;
    var c := [':'] + i;
    NoIdsCons('d', s);
    NoIdsCons('i', d);
    NoIdsCons(':', i);
    NoIdsCons('/', c);
    assert "/:id" + s == ['/'] + c;
  }

  lemma {:induction false} ReplacedIsClean(s: string)
    ensures NoIds(ReplaceIds(s))
    ensures '?' !in s ==> '?' !in ReplaceIds(s)
    decreases |s|
  {
    if s == "" {
    } else if Match(s) > 0 {
      ReplacedIsClean(s[Match(s)..]);
      PlaceholderIsClean(ReplaceIds(s[Match(s)..]));
    } else {
      ReplacedIsClean(s[1..]);
      ReplacedRun(s[1..]);
      NoIdsCons(s[0], ReplaceIds(s[1..]));
    }
  }

  lemma {:induction false} CleanIsFixed(s: string)
    requires NoIds(s)
    ensures ReplaceIds(s) == s
  {
    if s != "" {
      NoIdsTail(s);
      CleanIsFixed(s[1..]);
      assert s == [s[0]] + s[1..];
    }
  }

  /** A key has no query and no long identifier, whatever the route. */
  lemma KeyIsClean(route: Option<string>)
    ensures '?' !in NormalizeRoute(route) && NoIds(NormalizeRoute(route))
  {
    if route.Some? { ReplacedIsClean(CutQuery(route.value)); }
  }

  /** The routes that are their own key are exactly the non-empty ones with nothing to replace. */
  lemma KeysAreTheCleanRoutes(s: string)
    ensures NormalizeRoute(Some(s)) == s <==> s != "" && '?' !in s && NoIds(s)
  {
    KeyIsClean(Some(s));
    if s != "" && '?' !in s && NoIds(s) {
      assert CutQuery(s) == s;
      CleanIsFixed(s);
    }
  }

  /** Normalising is idempotent exactly on the routes that are more than a query. */
  lemma Idempotent(s: string)
    ensures var key := NormalizeRoute(Some(s));
      NormalizeRoute(Some(key)) == key <==> !("?" <= s)
  {
    KeyIsClean(Some(s));
    KeysAreTheCleanRoutes(NormalizeRoute(Some(s)));
  }

  /** So it is on every path. */
  lemma IdempotentOnPaths(s: string)
    requires "/" <= s
    ensures NormalizeRoute(Some(NormalizeRoute(Some(s)))) == NormalizeRoute(Some(s))
  {
    Idempotent(s);
  }

  /** A text that is only a query, which no request has for its route: its key is not its own key. */
  lemma QueryAloneIsNot()
    ensures NormalizeRoute(Some("?x")) == "" && NormalizeRoute(Some("")) == "unknown"
  {
    assert CutQuery("?x") == "";
  }

  /** What comes after a slash does not change how what comes before it is replaced. */
  lemma {:induction false} ReplaceSplits(pre: string, rest: string)
    requires rest != "" && rest[0] == '/'
    ensures ReplaceIds(pre + rest) == ReplaceIds(pre) + ReplaceIds(rest)
    decreases |pre|
  {
    if pre == "" {
      assert pre + rest == rest;
    } else {
      var n := if Match(pre) > 0 then Match(pre) else 1;
      var head := if Match(pre) > 0 then "/:id" else [pre[0]];
      MatchSplits(pre, rest);
      ReplaceHead(pre);
      ReplaceHead(pre + rest);
      DropFront(pre, rest, n);
      ReplaceSplits(pre[n..], rest);
      Associate(head, ReplaceIds(pre[n..]), ReplaceIds(rest));
    }
  }

  lemma DropFront(a: string, b: string, n: nat)
    requires n <= |a|
    ensures (a + b)[n..] == a[n..] + b
  {
  }

  /** One step of the replacement. */
  lemma ReplaceHead(s: string)
    requires s != ""
    ensures var n := if Match(s) > 0 then Match(s) else 1;
      ReplaceIds(s) == (if Match(s) > 0 then "/:id" else [s[0]]) + ReplaceIds(s[n..])
  {
  }

  lemma MatchSplits(pre: string, rest: string)
    requires pre != "" && rest != "" && rest[0] == '/'
    ensures Match(pre + rest) == Match(pre)
  {
    assert (pre + rest)[1..] == pre[1..] + rest;
    RunSplits(pre[1..], rest);
  }

  lemma {:induction false} RunSplits(s: string, rest: string)
    requires rest == "" || !IsIdChar(rest[0])
    ensures RunLength(s + rest) == RunLength(s)
  {
    if s == "" {
      assert s + rest == rest;
    } else {
      assert (s + rest)[1..] == s[1..] + rest;
      RunSplits(s[1..], rest);
    }
  }

  /** An identifier of a route: as long as it can be, and long enough. */
  ghost predicate LongId(id: string, post: string) {
    |id| >= 6 && (forall i :: 0 <= i < |id| ==> IsIdChar(id[i])) && (post == "" || !IsIdChar(post[0]))
  }

  lemma IdReplaced(pre: string, id: string, post: string)
    requires LongId(id, post)
    ensures ReplaceIds(pre + "/" + id + post) == ReplaceIds(pre) + "/:id" + ReplaceIds(post)
  {
    var rest := "/" + id + post;
    Reassociate(pre, "/", id, post);
    ReplaceSplits(pre, rest);
    IdMatched(id, post);
    Associate(ReplaceIds(pre), "/:id", ReplaceIds(post));
  }

  lemma Associate(a: string, b: string, c: string)
    ensures a + b + c == a + (b + c)
  {
  }

  lemma Reassociate(a: string, b: string, c: string, d: string)
    ensures a + b + c + d == a + (b + c + d)
  {
    Associate(a + b, c, d);
    Associate(a, b, c + d);
    Associate(b, c, d);
  }

  lemma IdMatched(id: string, post: string)
    requires LongId(id, post)
    ensures ReplaceIds("/" + id + post) == "/:id" + ReplaceIds(post)
  {
    var rest := "/" + id + post;
    assert rest[1..] == id + post;
    RunSplits(id, post);
    AllRun(id);
    assert rest[1 + |id|..] == post;
  }

  lemma {:induction false} AllRun(id: string)
    requires forall i :: 0 <= i < |id| ==> IsIdChar(id[i])
    ensures RunLength(id) == |id|
  {
    if id != "" { AllRun(id[1..]); }
  }

  lemma {:induction false} CutSplits(a: string, b: string)
    ensures CutQuery(a + b) == if '?' in a then CutQuery(a) else a + CutQuery(b)
  {
    if a == "" {
      assert a + b == b;
    } else {
      assert (a + b)[1..] == a[1..] + b;
      CutSplits(a[1..], b);
    }
  }

  /** Routes that differ in a long identifier have the same key, wherever it stands. */
  lemma SameKey(pre: string, id: string, id': string, post: string)
    requires LongId(id, post) && LongId(id', post)
    ensures NormalizeRoute(Some(pre + "/" + id + post)) == NormalizeRoute(Some(pre + "/" + id' + post))
  {
    CutAfterId(pre, id, post);
    CutAfterId(pre, id', post);
    if '?' !in pre {
      CutKeepsId(id, post);
      CutKeepsId(id', post);
      IdReplaced(pre, id, CutQuery(post));
      IdReplaced(pre, id', CutQuery(post));
    }
  }

  lemma CutAfterId(pre: string, id: string, post: string)
    requires LongId(id, post)
    ensures CutQuery(pre + "/" + id + post) == if '?' in pre then CutQuery(pre) else pre + "/" + id + CutQuery(post)
  {
    var tail := "/" + id;
    assert CutQuery(pre + tail + post) == if '?' in pre then CutQuery(pre) else pre + tail + CutQuery(post) by {
      NoQueryInId(id);
      CutTwice(pre, tail, post);
    }
    assert pre + "/" + id == pre + tail;
  }

  lemma CutKeepsId(id: string, post: string)
    requires LongId(id, post)
    ensures LongId(id, CutQuery(post))
  {
  }

  lemma CutTwice(pre: string, tail: string, post: string)
    requires '?' !in tail && CutQuery(tail) == tail
    ensures CutQuery(pre + tail + post) == if '?' in pre then CutQuery(pre) else pre + tail + CutQuery(post)
  {
    CutSplits(pre + tail, post);
    CutSplits(pre, tail);
    assert '?' in pre + tail <==> '?' in pre || '?' in tail;
  }

  lemma NoQueryInId(id: string)
    requires forall i :: 0 <= i < |id| ==> IsIdChar(id[i])
    ensures '?' !in "/" + id && CutQuery("/" + id) == "/" + id
  {
    assert forall c :: c in id ==> IsIdChar(c);
  }
}
