/**
  The keys under which the application keeps its records and indexes: distinct keys
  have distinct texts, and the prefix scan for the votes of a link finds exactly
  these. The application's model uses the keys themselves.
 */
module StoreKeys {
  import opened Decimal

  datatype Key =
    | SeqUser | SeqLink | SeqComment
    | UserKey(user: int)
    | EmailKey(email: string)
    | LinkKey(link: int)
    | CommentKey(comment: int)
    | VoteKey(link: int, user: int)
    | RecentLinks
    | TagLinks(tag: string)
    | UserLinks(user: int)
    | LinkComments(link: int)

  function Encode(k: Key): string {
    match k
    case SeqUser => "seq:user"
    case SeqLink => "seq:link"
    case SeqComment => "seq:comment"
    case UserKey(id) => "user:" + FormatInt(id)
    case EmailKey(email) => "user:email:" + email
    case LinkKey(id) => "link:" + FormatInt(id)
    case CommentKey(id) => "comment:" + FormatInt(id)
    case VoteKey(l, u) => "vote:" + FormatInt(l) + ":" + FormatInt(u)
    case RecentLinks => "index:links:recent"
    case TagLinks(tag) => "index:links:tag:" + tag
    case UserLinks(id) => "index:user:" + FormatInt(id) + ":links"
    case LinkComments(id) => "index:link:" + FormatInt(id) + ":comments"
  }

  function VotePrefix(link: int): string {
    "vote:" + FormatInt(link) + ":"
  }

  predicate HasPrefix(s: string, prefix: string) {
    |prefix| <= |s| && s[..|prefix|] == prefix
  }

  /** Decimal text is a digit or a minus sign first, and never has a colon. */
  lemma DecimalText(n: int)
    ensures |FormatInt(n)| > 0 && (IsDigit(FormatInt(n)[0]) || FormatInt(n)[0] == '-')
    ensures ':' !in FormatInt(n)
  {
    DigitsRoundTrip(if n < 0 then -n else n);
    var ds := Digits(if n < 0 then -n else n);
    assert forall k | 0 <= k < |ds| :: IsDigit(ds[k]);
  }

  /** Text up to the first colon decides. */
  lemma ColonSplits(a: string, x: string, b: string, y: string)
    requires ':' !in a && ':' !in b && a + ":" + x == b + ":" + y
    ensures a == b && x == y
  {
    var s := a + ":" + x;
    assert s[|a|] == ':' && s[|b|] == ':';
    assert forall k | 0 <= k < |a| :: s[k] == a[k];
    assert forall k | 0 <= k < |b| :: s[k] == b[k];
    assert |a| == |b|;
    assert a == s[..|a|] == b;
    assert x == s[|a| + 1..] == y;
  }

  lemma CancelPrefix(p: string, a: string, b: string)
    requires p + a == p + b
    ensures a == b
  {
    assert a == (p + a)[|p|..];
    assert b == (p + b)[|p|..];
  }

  lemma CancelSuffix(a: string, b: string, p: string)
    requires a + p == b + p
    ensures a == b
  {
    assert |a| == |b|;
    assert a == (a + p)[..|a|];
    assert b == (b + p)[..|b|];
  }

  /** Which kind of key a text is of shows in its first characters. */
  function Kind(k: Key): nat {
    match k
    case SeqUser => 0
    case SeqLink => 1
    case SeqComment => 2
    case UserKey(_) => 3
    case EmailKey(_) => 4
    case LinkKey(_) => 5
    case CommentKey(_) => 6
    case VoteKey(_, _) => 7
    case RecentLinks => 8
    case TagLinks(_) => 9
    case UserLinks(_) => 10
    case LinkComments(_) => 11
  }

  /** The beginning of a key's text that is the same for its kind. */
  function Head(k: Key): string {
    match k
    case SeqUser => "seq:user"
    case SeqLink => "seq:link"
    case SeqComment => "seq:comment"
    case UserKey(_) => "user:"
    case EmailKey(_) => "user:email:"
    case LinkKey(_) => "link:"
    case CommentKey(_) => "comment:"
    case VoteKey(_, _) => "vote:"
    case RecentLinks => "index:links:recent"
    case TagLinks(_) => "index:links:tag:"
    case UserLinks(_) => "index:user:"
    case LinkComments(_) => "index:link:"
  }

  lemma EncodeHead(k: Key)
    ensures HasPrefix(Encode(k), Head(k))
    ensures k.UserKey? ==> |Encode(k)| > 5 && Encode(k)[5] != 'e'
    ensures k.EmailKey? ==> |Encode(k)| > 5 && Encode(k)[5] == 'e'
  {
    hide FormatInt;
    if k.UserKey? {
      DecimalText(k.user);
    }
  }

  /** Texts of different kinds differ. */
  lemma KindsDiffer(j: Key, k: Key)
    requires Encode(j) == Encode(k)
    ensures Kind(j) == Kind(k)
  {
    hide Encode;
    EncodeHead(j);
    EncodeHead(k);
    var s, a, b := Encode(j), Head(j), Head(k);
    var n := if |a| < |b| then |a| else |b|;
    assert a[..n] == s[..n] by { assert a == s[..|a|]; assert s[..|a|][..n] == s[..n]; }
    assert b[..n] == s[..n] by { assert b == s[..|b|]; assert s[..|b|][..n] == s[..n]; }
    HeadsDiffer(j, k, n);
  }

  lemma HeadsDiffer(j: Key, k: Key, n: nat)
    requires n == (if |Head(j)| < |Head(k)| then |Head(j)| else |Head(k)|) && Head(j)[..n] == Head(k)[..n]
    requires !(j.UserKey? && k.EmailKey?) && !(j.EmailKey? && k.UserKey?)
    ensures Kind(j) == Kind(k)
  {
    hide Encode;
    hide Head;
    HeadMarks(j);
    HeadMarks(k);
    var a, b := Head(j), Head(k);
    assert forall i | 0 <= i < n :: a[i] == a[..n][i] == b[..n][i] == b[i];
  }

  /** Characters that tell the kinds apart, as far as the heads go. */
  function Marks(k: Key): (char, char, char, char, char) {
    match k
    case SeqUser => ('s', 'u', 'e', ' ', ' ')
    case SeqLink => ('s', 'l', 'n', ' ', ' ')
    case SeqComment => ('s', 'c', 'm', 't', ' ')
    case UserKey(_) => ('u', ':', ' ', ' ', ' ')
    case EmailKey(_) => ('u', ':', 'm', ':', ' ')
    case LinkKey(_) => ('l', ':', ' ', ' ', ' ')
    case CommentKey(_) => ('c', 'e', 't', ' ', ' ')
    case VoteKey(_, _) => ('v', ':', ' ', ' ', ' ')
    case RecentLinks => ('i', 'x', 'l', 's', 'r')
    case TagLinks(_) => ('i', 'x', 'l', 's', 't')
    case UserLinks(_) => ('i', 'x', 'u', ':', ' ')
    case LinkComments(_) => ('i', 'x', 'l', ':', ' ')
  }

  lemma HeadMarks(k: Key)
    ensures var h, m := Head(k), Marks(k);
            && |h| >= 5 && h[0] == m.0 && h[4] == m.1
            && (|h| > 6 ==> h[6] == m.2) && (|h| > 10 ==> h[10] == m.3) && (|h| > 12 ==> h[12] == m.4)
    ensures k.UserKey? || k.LinkKey? || k.VoteKey? ==> |Head(k)| == 5
    ensures k.UserLinks? || k.LinkComments? || k.RecentLinks? || k.TagLinks? ==> |Head(k)| >= 11
    ensures k.RecentLinks? || k.TagLinks? ==> |Head(k)| > 12
    ensures k.SeqUser? || k.SeqLink? || k.SeqComment? ==> |Head(k)| > 6
  {
  }

  /** Different keys have different texts. */
  lemma EncodeInjective(j: Key, k: Key)
    requires Encode(j) == Encode(k)
    ensures j == k
  {
    hide FormatInt;
    KindsDiffer(j, k);
    match j
    case UserKey(id) => CancelPrefix("user:", FormatInt(id), FormatInt(k.user)); FormatInjective(id, k.user);
    case EmailKey(email) => CancelPrefix("user:email:", email, k.email);
    case LinkKey(id) => CancelPrefix("link:", FormatInt(id), FormatInt(k.link)); FormatInjective(id, k.link);
    case CommentKey(id) => CancelPrefix("comment:", FormatInt(id), FormatInt(k.comment)); FormatInjective(id, k.comment);
    case VoteKey(l, u) => VoteKeysDiffer(l, u, k.link, k.user);
    case TagLinks(tag) => CancelPrefix("index:links:tag:", tag, k.tag);
    case UserLinks(id) =>
      CancelSuffix("index:user:" + FormatInt(id), "index:user:" + FormatInt(k.user), ":links");
      CancelPrefix("index:user:", FormatInt(id), FormatInt(k.user));
      FormatInjective(id, k.user);
    case LinkComments(id) =>
      CancelSuffix("index:link:" + FormatInt(id), "index:link:" + FormatInt(k.link), ":comments");
      CancelPrefix("index:link:", FormatInt(id), FormatInt(k.link));
      FormatInjective(id, k.link);
    case _ =>
  }

  lemma VoteKeysDiffer(l: int, u: int, m: int, v: int)
    requires Encode(VoteKey(l, u)) == Encode(VoteKey(m, v))
    ensures l == m && u == v
  {
    hide FormatInt;
    DecimalText(l);
    DecimalText(m);
    assert Encode(VoteKey(l, u)) == "vote:" + (FormatInt(l) + ":" + FormatInt(u));
    assert Encode(VoteKey(m, v)) == "vote:" + (FormatInt(m) + ":" + FormatInt(v));
    CancelPrefix("vote:", FormatInt(l) + ":" + FormatInt(u), FormatInt(m) + ":" + FormatInt(v));
    ColonSplits(FormatInt(l), FormatInt(u), FormatInt(m), FormatInt(v));
    FormatInjective(l, m);
    FormatInjective(u, v);
  }

  /** The prefix scan for a link finds its votes, no other link's, and nothing else. */
  lemma VoteScanExact(k: Key, link: int)
    ensures HasPrefix(Encode(k), VotePrefix(link)) <==> k.VoteKey? && k.link == link
  {
    hide FormatInt;
    var p := VotePrefix(link);
    if k.VoteKey? {
      var s := Encode(k);
      assert s == "vote:" + (FormatInt(k.link) + ":" + FormatInt(k.user));
      if k.link == link {
        assert s[..|p|] == p;
      } else if HasPrefix(s, p) {
        assert s == p + s[|p|..];
        assert p + s[|p|..] == "vote:" + (FormatInt(link) + ":" + s[|p|..]);
        CancelPrefix("vote:", FormatInt(k.link) + ":" + FormatInt(k.user), FormatInt(link) + ":" + s[|p|..]);
        DecimalText(link);
        DecimalText(k.link);
        ColonSplits(FormatInt(k.link), FormatInt(k.user), FormatInt(link), s[|p|..]);
        FormatInjective(k.link, link);
      }
    } else {
      NoVoteHead(k);
      PrefixFirst(Encode(k), p);
    }
  }

  lemma PrefixFirst(s: string, p: string)
    requires |p| > 0
    ensures HasPrefix(s, p) ==> |s| > 0 && s[0] == p[0]
  {
  }

  lemma NoVoteHead(k: Key)
    requires !k.VoteKey?
    ensures |Encode(k)| > 0 && Encode(k)[0] != 'v'
  {
  }
}
