/** The router node: one classification call over the whole history, the reply normalised and
    checked against the three route labels, anything else falling back to "chat". */
module RouterAgent {
  import opened Wrappers
  import opened PyText
  import opened AgentState
  import opened Llm

  /** The route used when the classifier's reply is not a label. */
  const DefaultRoute := Chat

  predicate NoSpace(s: string) {
    forall i :: 0 <= i < |s| ==> !IsSpace(s[i])
  }

  predicate NoUpper(s: string) {
    forall i :: 0 <= i < |s| ==> !('A' <= s[i] <= 'Z')
  }

  /** `content.strip().lower().replace("\n", "").replace(" ", "")`. */
  function Normalise(reply: string): (r: string)
    ensures ' ' !in r && '\n' !in r
    ensures NoUpper(r)
    ensures Trimmed(r)
  {
    var t := Strip(reply);
    var l := Lower(t);
    var n := RemoveAll(l, '\n');
    var r := RemoveAll(n, ' ');
    StripTrimmed(reply);
    TrimmedLower(t);
    RemoveAllTrimmed(l, '\n');
    RemoveAllTrimmed(n, ' ');
    NoUpperKept(l, '\n');
    NoUpperKept(n, ' ');
    assert multiset(r)['\n'] == multiset(n)['\n'] == 0;
    r
  }

  lemma TrimmedLower(s: string)
    requires Trimmed(s)
    ensures Trimmed(Lower(s)) && NoUpper(Lower(s))
  {
  }

  lemma {:induction false} RemoveAllLast(s: string, c: char)
    requires s != [] && s[|s| - 1] != c
    ensures RemoveAll(s, c) != [] && RemoveAll(s, c)[|RemoveAll(s, c)| - 1] == s[|s| - 1]
  {
    if |s| > 1 {
      RemoveAllLast(s[1..], c);
    }
  }

  /** Deleting a white-space character cannot expose white space at either end. */
  lemma RemoveAllTrimmed(s: string, c: char)
    requires Trimmed(s) && IsSpace(c)
    ensures Trimmed(RemoveAll(s, c))
  {
    if s != [] {
      RemoveAllLast(s, c);
    }
  }

  lemma {:induction false} NoUpperKept(s: string, c: char)
    requires NoUpper(s)
    ensures NoUpper(RemoveAll(s, c))
  {
    var r := RemoveAll(s, c);
    forall i | 0 <= i < |r| ensures !('A' <= r[i] <= 'Z') {
      assert r[i] in multiset(r);
      assert r[i] in multiset(s);
    }
  }

  lemma LowerUnchanged(s: string)
    requires NoUpper(s)
    ensures Lower(s) == s
  {
  }

  /** Normalising is idempotent: a normalised reply is its own normal form. */
  lemma NormaliseIdempotent(reply: string)
    ensures Normalise(Normalise(reply)) == Normalise(reply)
  {
    var r := Normalise(reply);
    StripPadded([], r, []);
    assert [] + r + [] == r;
    LowerUnchanged(r);
  }

  /** A label surrounded by white space, in any letter case and without inner white space,
      normalises to its lower-case form. */
  lemma NormalisePadded(w1: string, v: string, w2: string)
    requires AllSpace(w1) && AllSpace(w2) && NoSpace(v)
    ensures Normalise(w1 + v + w2) == Lower(v)
  {
    StripPadded(w1, v, w2);
    var l := Lower(v);
    assert ' ' !in l && '\n' !in l by {
      forall i | 0 <= i < |l| ensures l[i] != ' ' && l[i] != '\n' {
        assert !IsSpace(v[i]);
      }
    }
  }

  lemma LowerOfRag(v: string)
    requires v == "RAG"
    ensures Lower(v) == "rag"
  {
    var l := Lower(v);
    assert |l| == 3 && l[0] == 'r' && l[1] == 'a' && l[2] == 'g';
  }

  /** " RAG\n" is routed to rag. */
  lemma RouterExampleRag(reply: string)
    requires reply == " RAG\n"
    ensures Normalise(reply) == "rag"
    ensures ParseRoute(Normalise(reply)) == Some(Rag)
  {
    var w1, v, w2 := " ", "RAG", "\n";
    assert reply == w1 + v + w2;
    assert AllSpace(w1) && AllSpace(w2) && NoSpace(v);
    NormalisePadded(w1, v, w2);
    LowerOfRag(v);
  }

  lemma RemoveAllKeeps(s: string, c: char, x: char)
    requires x in s && x != c
    ensures x in RemoveAll(s, c)
  {
    assert multiset(RemoveAll(s, c))[x] == multiset(s)[x] > 0;
  }

  /** A character that is neither a capital letter, a blank nor a newline survives
      normalisation of a reply without surrounding white space. */
  lemma NormaliseKeeps(reply: string, x: char)
    requires Trimmed(reply) && x in reply
    requires !('A' <= x <= 'Z') && x != ' ' && x != '\n'
    ensures x in Normalise(reply)
  {
    StripPadded([], reply, []);
    assert [] + reply + [] == reply;
    var i :| 0 <= i < |reply| && reply[i] == x;
    var l := Lower(reply);
    assert l[i] == x;
    RemoveAllKeeps(l, '\n', x);
    RemoveAllKeeps(RemoveAll(l, '\n'), ' ', x);
  }

  /** "I cannot classify this." is not a label: its normal form keeps the full stop, so the
      router falls back to the default route. */
  lemma RouterExampleRefusal(reply: string)
    requires reply == "I cannot classify this."
    ensures ParseRoute(Normalise(reply)) == None
  {
    assert reply[0] == 'I' && reply[|reply| - 1] == '.';
    NormaliseKeeps(reply, '.');
    var r := Normalise(reply);
    assert r != "chat" && r != "rag" && r != "web" by {
      assert '.' !in "chat" && '.' !in "rag" && '.' !in "web";
    }
  }

  /** `router_agent(state)`: the classifier sees the router instruction followed by the full
      history; only `route` is written, and it always holds one of the three routes. */
  method RouterAgent(s: AgentState, llm: Model) returns (s': AgentState, calls: seq<Call>)
    ensures calls == [Call(RouterPrompt, s.messages, [])]
    ensures s' == s.(route := s'.route)
    ensures s'.route.Some?
    ensures forall r :: RouteName(r) == Normalise(llm(calls[0]).content) ==> s'.route == Some(r)
    ensures (forall r :: RouteName(r) != Normalise(llm(calls[0]).content)) ==> s'.route == Some(DefaultRoute)
  {
    var call := Call(RouterPrompt, s.messages, []);
    var response := llm(call);
    var route := ParseRoute(Normalise(response.content));
    if route.None? {
      route := Some(DefaultRoute);
    }
    s' := s.(route := route);
    calls := [call];
    forall r ensures RouteName(r) == Normalise(response.content) ==> s'.route == Some(r) {
      ParseRouteExact(Normalise(response.content), r);
    }
    if forall r :: RouteName(r) != Normalise(response.content) {
      ParseRouteExact(Normalise(response.content), Chat);
      ParseRouteExact(Normalise(response.content), Rag);
      ParseRouteExact(Normalise(response.content), Web);
    }
  }
}
