/** Small helper types shared by the whole model. */
module Wrappers {
  /** A value that may be absent (`undefined` in the source). */
  datatype Option<+T> = None | Some(value: T)

  /** What a call into an external collaborator did: returned, or threw an error with this text. */
  datatype Outcome = Ok | Throws(error: string)
}

/** Substring search, used for error texts. */
module Text {
  /** `sub` occurs somewhere in `s` (JavaScript's `String.prototype.includes`). */
  predicate Contains(s: string, sub: string)
    ensures Contains(s, sub) ==> |sub| <= |s|
    ensures sub == [] ==> Contains(s, sub)
    decreases |s|
  {
    if |sub| > |s| then false
    else if s[..|sub|] == sub then true
    else Contains(s[1..], sub)
  }

  /** A text contains a piece only where the piece really occurs: it splits around it. */
  lemma {:induction false} ContainsOccurs(s: string, sub: string)
    requires Contains(s, sub)
    ensures exists pre, post :: s == pre + sub + post
    decreases |s|
  {
    if s[..|sub|] == sub {
      assert s == [] + sub + s[|sub|..];
    } else {
      ContainsOccurs(s[1..], sub);
      var pre, post :| s[1..] == pre + sub + post;
      assert s == ([s[0]] + pre) + sub + post;
    }
  }

  /** Whatever surrounds it, a text contains every piece it was built from. */
  lemma {:induction false} ContainsMiddle(pre: string, sub: string, post: string)
    ensures Contains(pre + sub + post, sub)
  {
    var s := pre + sub + post;
    if pre == [] {
      assert s[..|sub|] == sub;
    } else if s[..|sub|] != sub {
      assert s[1..] == pre[1..] + sub + post;
      ContainsMiddle(pre[1..], sub, post);
    }
  }
}
