/** The footer of an activity-feed card: the number of replies, the latest
    reply time, the distinct repliers and the avatars it shows for them. */
module FeedCardFooter {
  import opened Wrappers

  datatype Post = Post(from: string, postTs: Option<int>)
  datatype Feed = Feed(postsCount: Option<int>, posts: Option<seq<Post>>)

  /** `feed?.postsCount ?? 0`. */
  function PostLength(feed: Option<Feed>): (r: int)
    ensures feed.Some? && feed.value.postsCount.Some? ==> r == feed.value.postsCount.value
    ensures feed.None? || feed.value.postsCount.None? ==> r == 0
  {
    if feed.Some? && feed.value.postsCount.Some? then feed.value.postsCount.value else 0
  }

  function Posts(feed: Option<Feed>): seq<Post>
  {
    if feed.Some? && feed.value.posts.Some? then feed.value.posts.value else []
  }

  /** The largest timestamp of the posts that have one. */
  function MaxTs(posts: seq<Post>): (r: Option<int>)
    ensures r.None? <==> forall i :: 0 <= i < |posts| ==> posts[i].postTs.None?
    ensures r.Some? ==>
      (exists i :: 0 <= i < |posts| && posts[i].postTs == r) &&
      forall i :: 0 <= i < |posts| && posts[i].postTs.Some? ==> posts[i].postTs.value <= r.value
  {
    if posts == [] then None
    else
      var rest := MaxTs(posts[1..]);
      assert forall i :: 1 <= i < |posts| ==> posts[i] == posts[1..][i - 1];
      var first := posts[0].postTs;
      if first.None? then rest
      else if rest.None? || rest.value <= first.value then first
      else
        assert exists i :: 0 <= i < |posts[1..]| && posts[1..][i].postTs == rest;
        rest
  }

  /** The first timestamp after `sortBy(posts, 'postTs').reverse()`: sorting
      puts posts without a timestamp last, so after the reversal they come
      first and the result is undefined; otherwise it is the largest
      timestamp. There is none without posts. */
  function LatestReplyTimeStamp(feed: Option<Feed>): (r: Option<int>)
    ensures Posts(feed) == [] ==> r.None?
    ensures (exists i :: 0 <= i < |Posts(feed)| && Posts(feed)[i].postTs.None?) ==> r.None?
    ensures Posts(feed) != [] && (forall i :: 0 <= i < |Posts(feed)| ==> Posts(feed)[i].postTs.Some?) ==>
      r.Some? && (exists i :: 0 <= i < |Posts(feed)| && Posts(feed)[i].postTs == r) &&
      forall i :: 0 <= i < |Posts(feed)| ==> Posts(feed)[i].postTs.value <= r.value
  {
    var posts := Posts(feed);
    if exists i :: 0 <= i < |posts| && posts[i].postTs.None? then None else MaxTs(posts)
  }

  predicate Distinct(s: seq<string>)
  {
    forall i, j :: 0 <= i < j < |s| ==> s[i] != s[j]
  }

  /** The position of the first `x` in `s`. */
  function FirstIndex(s: seq<string>, x: string): (k: nat)
    requires x in s
    ensures k < |s| && s[k] == x && x !in s[..k]
  {
    if s[0] == x then 0
    else
      var k := FirstIndex(s[1..], x);
      assert s[..k + 1] == [s[0]] + s[1..][..k];
      k + 1
  }

  /** An entry of a prefix has the same first position in the whole. */
  lemma FirstIndexInPrefix(s: seq<string>, n: nat, x: string)
    requires n <= |s| && x in s[..n]
    ensures FirstIndex(s, x) == FirstIndex(s[..n], x)
  {
    var k := FirstIndex(s[..n], x);
    assert s[..k] == s[..n][..k];
    assert s[k] == x;
  }

  /** `[...new Set(s)]`: a Set iterates in insertion order, so each entry
      comes once, in the order of first occurrence. */
  function Dedupe(s: seq<string>): (r: seq<string>)
    ensures forall y :: y in r <==> y in s
    ensures Distinct(r)
    ensures forall i, j :: 0 <= i < j < |r| ==> FirstIndex(s, r[i]) < FirstIndex(s, r[j])
    ensures s != [] ==> r != [] && r[0] == s[0]
  {
    if s == [] then []
    else
      var init := s[..|s| - 1];
      var x := s[|s| - 1];
      var d := Dedupe(init);
      assert s == init + [x];
      forall y | y in d ensures FirstIndex(s, y) == FirstIndex(init, y) {
        FirstIndexInPrefix(s, |s| - 1, y);
      }
      if x in d then d
      else
        assert FirstIndex(s, x) == |s| - 1;
        assert init != [] ==> d[0] == s[0];
        d + [x]
  }

  function Senders(posts: seq<Post>): (r: seq<string>)
    ensures |r| == |posts| && forall i :: 0 <= i < |posts| ==> r[i] == posts[i].from
  {
    seq(|posts|, i requires 0 <= i < |posts| => posts[i].from)
  }

  function Min(a: int, b: int): int { if a < b then a else b }

  /** `repliedUniqueUsersList`: `repliedUsers.slice(0, min([3, length]))`
      of the distinct senders. */
  function RepliedUniqueUsersList(feed: Option<Feed>): (r: seq<string>)
    ensures var d := Dedupe(Senders(Posts(feed))); r == d[..Min(3, |d|)]
    ensures |r| <= 3 && Distinct(r)
    ensures forall u :: u in r ==> exists i :: 0 <= i < |Posts(feed)| && Posts(feed)[i].from == u
    ensures Posts(feed) != [] ==> r != [] && r[0] == Posts(feed)[0].from
  {
    var users := Dedupe(Senders(Posts(feed)));
    var r := users[..Min(3, |users|)];
    assert forall u :: u in r ==> u in users;
    r
  }

  /** The repliers shown are the first three distinct senders in order of
      their first post: any sender left out posted first after all three. */
  lemma RepliersAreTheEarliest(feed: Option<Feed>)
    ensures var s := Senders(Posts(feed)); var r := RepliedUniqueUsersList(feed);
      forall i, j :: 0 <= i < j < |r| ==> FirstIndex(s, r[i]) < FirstIndex(s, r[j])
    ensures var s := Senders(Posts(feed)); var r := RepliedUniqueUsersList(feed);
      forall u :: u in s && u !in r ==> |r| == 3 && forall k :: 0 <= k < 3 ==> FirstIndex(s, r[k]) < FirstIndex(s, u)
  {
    var s := Senders(Posts(feed));
    var users := Dedupe(s);
    var r := RepliedUniqueUsersList(feed);
    assert forall i :: 0 <= i < |r| ==> r[i] == users[i];
    assert forall i :: 0 <= i < |r| ==> users[i] in r;
    forall u | u in s && u !in r
      ensures |r| == 3 && forall k :: 0 <= k < 3 ==> FirstIndex(s, r[k]) < FirstIndex(s, u)
    {
      var m :| 0 <= m < |users| && users[m] == u;
    }
  }

  /** A thread whose every post comes from one user has that user as its
      only replier. */
  lemma OneUserRepliesOnce(feed: Option<Feed>, u: string)
    requires Posts(feed) != []
    requires forall i :: 0 <= i < |Posts(feed)| ==> Posts(feed)[i].from == u
    ensures RepliedUniqueUsersList(feed) == [u]
  {
    DedupeOfOne(Senders(Posts(feed)), u);
  }

  /** Entries that are all `u` dedupe to `[u]`. */
  lemma {:induction false} DedupeOfOne(s: seq<string>, u: string)
    requires s != [] && forall i :: 0 <= i < |s| ==> s[i] == u
    ensures Dedupe(s) == [u]
  {
    var init := s[..|s| - 1];
    if init != [] {
      DedupeOfOne(init, u);
    }
  }

  /** The avatars shown: none for a post or a thread without replies (the
      group is not rendered), otherwise the first two repliers. */
  function ReplierAvatars(feed: Option<Feed>, isPost: bool): (r: Option<seq<string>>)
    ensures r.Some? <==> PostLength(feed) > 0 && !isPost
    ensures r.Some? ==> |r.value| <= 2 && Distinct(r.value)
    ensures r.Some? ==> forall u :: u in r.value ==> u in RepliedUniqueUsersList(feed)
    ensures r.Some? ==>
      var d := Dedupe(Senders(Posts(feed))); r.value == d[..Min(2, |d|)]
  {
    var list := RepliedUniqueUsersList(feed);
    if PostLength(feed) > 0 && !isPost then
      var shown := list[..if |list| < 2 then |list| else 2];
      assert forall u :: u in shown ==> u in list;
      Some(shown)
    else None
  }
}
