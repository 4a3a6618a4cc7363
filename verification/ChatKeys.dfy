/** The keys chat work is kept and ordered by (internal/bridge/pending.go). */
module ChatKeys {
  import opened Text
  import opened ChatPlan
  import opened Chat

  lemma CancelFront(front: string, a: string, b: string)
    requires front + a == front + b
    ensures a == b
  {
    assert (front + a)[|front|..] == a && (front + b)[|front|..] == b;
  }

  lemma CancelBack(a: string, b: string, back: string)
    requires a + back == b + back
    ensures a == b
  {
    assert (a + back)[..|a|] == a && (b + back)[..|b|] == b;
  }

  /** The kinds' names differ before any of them ends. */
  lemma KindsDiffer(k1: Kind, rest1: string, k2: Kind, rest2: string)
    requires KindName(k1) + "/" + rest1 == KindName(k2) + "/" + rest2
    ensures k1 == k2
  {
    var s1, s2 := KindName(k1) + "/" + rest1, KindName(k2) + "/" + rest2;
    assert s1[0] == KindName(k1)[0] && s2[0] == KindName(k2)[0];
    assert s1[13] == KindName(k1)[13] && s2[13] == KindName(k2)[13];
  }

  lemma KeyOfPost(a: Action)
    requires WellFormed(a) && a.kind != CreateForgeRequest
    ensures ActionKey(a) == (KindName(a.kind) + "/") + (a.requestID + "/")
  {
    assert a.requestID + "/" + a.source == a.requestID + "/";
  }

  lemma KeyOfCreate(a: Action)
    requires WellFormed(a) && a.kind == CreateForgeRequest
    ensures ActionKey(a) == (KindName(a.kind) + "/" + "/") + a.source
  {
    assert a.requestID + "/" + a.source == "/" + a.source;
  }

  /** Two planned actions share a key exactly when they are the same piece of work. */
  lemma ActionKeyInjective(a: Action, b: Action)
    requires WellFormed(a) && WellFormed(b)
    ensures ActionKey(a) == ActionKey(b)
            <==> a.kind == b.kind && a.requestID == b.requestID && a.source == b.source
  {
    if ActionKey(a) == ActionKey(b) {
      KindsDiffer(a.kind, a.requestID + "/" + a.source, b.kind, b.requestID + "/" + b.source);
      if a.kind == CreateForgeRequest {
        KeyOfCreate(a);
        KeyOfCreate(b);
        CancelFront(KindName(a.kind) + "/" + "/", a.source, b.source);
      } else {
        KeyOfPost(a);
        KeyOfPost(b);
        CancelFront(KindName(a.kind) + "/", a.requestID + "/", b.requestID + "/");
        CancelBack(a.requestID, b.requestID, "/");
      }
    }
  }

  /** A request's post sorts before its reply: the order the replies silently depend on. */
  lemma PostSortsBeforeReply(post: Action, reply: Action)
    requires post.kind == PostRequestMessage && reply.kind == PostRequestReply
    ensures ActionKey(post) != ActionKey(reply) && AtMost(ActionKey(post), ActionKey(reply))
  {
    var tail1 := "/" + (post.requestID + "/" + post.source);
    var tail2 := "/" + (reply.requestID + "/" + reply.source);
    assert ActionKey(post) == "post_request_" + ("message" + tail1);
    assert ActionKey(reply) == "post_request_" + ("reply" + tail2);
    assert AtMost("message" + tail1, "reply" + tail2);
    AtMostAfterFront("post_request_", "message" + tail1, "reply" + tail2);
    assert ActionKey(post)[13] == 'm' && ActionKey(reply)[13] == 'r';
  }
}
