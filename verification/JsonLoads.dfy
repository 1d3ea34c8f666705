/**
 The reader as a json.loads, and what its existence says about the concrete syntax.
 */
module JsonLoads {
  import opened Options
  import opened JsonText
  import opened JsonReader

  /** The reader is a json.loads: every text of the concrete syntax, however printed and padded, is read
      back as the value it denotes. */
  lemma LoadsReads()
    ensures ReadsJson(Loads)
  {
    forall pre, t, post | IsWs(pre) && GoodText(t) && IsWs(post)
      ensures Loads(Padded(pre, t, post)) == Some(Denote(t))
    {
      var e := Elem(pre, t, post);
      ElemRead(e, "");
      assert Padded(pre, t, post) == ElemText(e) + "";
    }
  }

  /** So the concrete syntax is unambiguous: a string that is a JSON text in two ways denotes one value. */
  lemma Unambiguous(pre: string, t: JsonText, post: string, pre': string, t': JsonText, post': string)
    requires IsWs(pre) && GoodText(t) && IsWs(post) && IsWs(pre') && GoodText(t') && IsWs(post')
    requires Padded(pre, t, post) == Padded(pre', t', post')
    ensures Denote(t) == Denote(t')
  {
    LoadsReads();
    assert Loads(Padded(pre, t, post)) == Some(Denote(t));
    assert Loads(Padded(pre', t', post')) == Some(Denote(t'));
  }
}
