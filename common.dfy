/** Small value types shared by every front end: optional values, the outcome
    of a call into the external data-agent client, and a first-match search. */
module Common {

  datatype Option<+T> = None | Some(value: T) {
    function GetOr(default: T): T {
      match this
      case Some(v) => v
      case None => default
    }
  }

  /** What a call into the external client yields: a value, or the message of
      the exception it raised (`str(e)`). */
  datatype Fallible<+T> = Ok(value: T) | Err(message: string)

  /** The outcome of constructing the external client (which authenticates). */
  datatype Outcome = Pass | Fail(message: string)

  /** Opaque handle for a constructed client; it remembers its credentials. */
  datatype Client = Client(tenantId: string, dataAgentUrl: string)

  /** Index of the first element satisfying `p`: the shape shared by every
      `for ... : if ...: ...; break` loop of the front ends. */
  function FirstWhere<T>(s: seq<T>, p: T -> bool): (r: Option<nat>)
    ensures r.None? <==> forall i :: 0 <= i < |s| ==> !p(s[i])
    ensures r.Some? ==> r.value < |s| && p(s[r.value])
    ensures r.Some? ==> forall j :: 0 <= j < r.value ==> !p(s[j])
  {
    if s == [] then None
    else if p(s[0]) then Some(0)
    else match FirstWhere(s[1..], p)
      case None => None
      case Some(k) => Some(k + 1)
  }

  /** The first match is unaffected by what follows it. */
  lemma {:induction false} FirstWhereIgnoresSuffix<T>(s: seq<T>, t: seq<T>, p: T -> bool)
    requires FirstWhere(s, p).Some?
    ensures FirstWhere(s + t, p) == FirstWhere(s, p)
  {
    if !p(s[0]) {
      assert (s + t)[1..] == s[1..] + t;
      FirstWhereIgnoresSuffix(s[1..], t, p);
    }
  }

  /** Elements that fail `p` in front shift the first match along. */
  lemma {:induction false} FirstWhereAfter<T>(pre: seq<T>, s: seq<T>, p: T -> bool)
    requires forall j :: 0 <= j < |pre| ==> !p(pre[j])
    ensures FirstWhere(pre + s, p) ==
            match FirstWhere(s, p) case None => None case Some(k) => Some(k + |pre|)
  {
    if pre != [] {
      var whole := pre + s;
      assert whole[0] == pre[0] && whole[1..] == pre[1..] + s;
      FirstWhereAfter(pre[1..], s, p);
      assert FirstWhere(whole, p) ==
             match FirstWhere(whole[1..], p) case None => None case Some(k) => Some(k + 1);
    } else {
      assert pre + s == s;
    }
  }
}
