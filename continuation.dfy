/** `_redirect`: the continuation a redirect carries so that the next request
    can resume the task without server-side session state. */
module Continuation {
  import opened Options
  import opened HttpRequest

  /** The protocol's own request fields. */
  const JobField := "_longtaskjob"
  const IdField := "_longtaskid"
  const StartingPointField := "_longtaskstartingpoint"

  /** Original field values of this length or more are not carried along. */
  const MaxForwardedLength := 512

  /** An HTTP redirect: `code`, the target `location`, and the query string
      appended to it as name/value pairs (empty: the location is used as is). */
  datatype Redirection = Redirection(code: int, location: string, query: seq<Field>)

  /** Whether an original field is carried into the continuation. */
  predicate Carried(req: Request, name: string)
  {
    !IsPrivate(name) && |Get(req, name)| < MaxForwardedLength
  }

  /** The list comprehension over `names`: each carried name with its value,
      in the order of `names`. */
  function Forwarded(req: Request, names: seq<string>): (r: seq<Field>)
    ensures forall f | f in r :: f.name in names && Carried(req, f.name) && f.value == Get(req, f.name)
    ensures forall n | n in names && Carried(req, n) :: Field(n, Get(req, n)) in r
  {
    if names == [] then []
    else
      var rest := Forwarded(req, names[1..]);
      assert forall n | n in names[1..] :: n in names;
      if Carried(req, names[0]) then [Field(names[0], Get(req, names[0]))] + rest else rest
  }

  /** The original fields a non-`PUT` continuation carries. */
  function ForwardedFields(req: Request): seq<Field>
  {
    Forwarded(req, ArgumentNames(req.fields))
  }

  /** The restart URL: the one the request already carries, else its own URL. */
  function StartingPoint(req: Request): string
  {
    GetOr(req, StartingPointField, req.url)
  }

  /** The redirect to `typ` (`query` or `showresult`) for task `id`, whose
      record was created by a request with method `taskVerb`. */
  function RedirectFor(req: Request, taskVerb: string, id: string, typ: string): (r: Redirection)
    ensures r.location == req.path
    ensures |r.query| >= 2 && r.query[0] == Field(JobField, typ) && r.query[1] == Field(IdField, id)
    ensures taskVerb == "PUT" ==> r.code == 302 && |r.query| == 2
    ensures taskVerb != "PUT" ==>
      && r.code == 307
      && |r.query| >= 3
      && r.query[2] == Field(StartingPointField, StartingPoint(req))
      && r.query[3..] == ForwardedFields(req)
    ensures forall i | 0 <= i < |r.query| && IsPrivate(r.query[i].name) ::
      i < 3 && r.query[i].name in {JobField, IdField, StartingPointField}
  {
    var protocol := [Field(JobField, typ), Field(IdField, id)];
    if taskVerb == "PUT" then Redirection(302, req.path, protocol)
    else
      var forwarded := ForwardedFields(req);
      var front := protocol + [Field(StartingPointField, StartingPoint(req))];
      var query := front + forwarded;
      assert query[3..] == forwarded;
      ForwardedPublic(req);
      PrivateOnlyInFront(front, forwarded);
      Redirection(307, req.path, query)
  }

  /** When no field of `back` is private, a private field of `front + back`
      lies in `front`. */
  lemma PrivateOnlyInFront(front: seq<Field>, back: seq<Field>)
    requires forall i | 0 <= i < |back| :: !IsPrivate(back[i].name)
    ensures forall i | 0 <= i < |front + back| && IsPrivate((front + back)[i].name) ::
      i < |front| && (front + back)[i] == front[i]
  {
    assert forall i | |front| <= i < |front + back| :: (front + back)[i] == back[i - |front|];
  }

  /** No forwarded field belongs to the protocol. */
  lemma ForwardedPublic(req: Request)
    ensures forall i | 0 <= i < |ForwardedFields(req)| :: !IsPrivate(ForwardedFields(req)[i].name)
  {
    var fs := ForwardedFields(req);
    forall i | 0 <= i < |fs| ensures !IsPrivate(fs[i].name) {
      assert fs[i] in fs;
    }
  }

  /** Order is kept: the comprehension over a concatenation is the
      concatenation of the comprehensions. */
  lemma {:induction false} ForwardedAppend(req: Request, a: seq<string>, b: seq<string>)
    ensures Forwarded(req, a + b) == Forwarded(req, a) + Forwarded(req, b)
  {
    if a != [] {
      assert (a + b)[1..] == a[1..] + b;
      ForwardedAppend(req, a[1..], b);
    } else {
      assert a + b == b;
    }
  }

  /** Looking a name up in the forwarded fields gives back the original value
      exactly when that name is carried. */
  lemma {:induction false} ForwardedLookup(req: Request, names: seq<string>, n: string)
    ensures Lookup(Forwarded(req, names), n) == if n in names && Carried(req, n) then Some(Get(req, n)) else None
  {
    if names != [] {
      ForwardedLookup(req, names[1..], n);
      assert n in names <==> n == names[0] || n in names[1..];
    }
  }

  /** The client this model assumes: the request it sends when it follows
      redirect `r` from a request with method `verb` and form body `body`.
      It follows a 302 with a body-less `GET`, and a 307 with the same method
      and, unless that method is `GET`, the body re-sent, which `request.get`
      reads after the query. */
  function Follow(r: Redirection, verb: string, body: seq<Field>, url: string): Request
  {
    if r.code == 307 then Request(verb, r.location, url, r.query + if verb == "GET" then [] else body)
    else Request("GET", r.location, url, r.query)
  }

  /** What each name finds in the query of a redirect: the protocol pairs,
      and for a non-`PUT` redirect each public name's carried value. */
  lemma QueryLookup(req: Request, taskVerb: string, id: string, typ: string, n: string)
    ensures var q := RedirectFor(req, taskVerb, id, typ).query;
      && Lookup(q, JobField) == Some(typ)
      && Lookup(q, IdField) == Some(id)
      && (taskVerb == "PUT" ==> (Lookup(q, n).Some? ==> IsPrivate(n)))
      && (taskVerb != "PUT" ==>
            && Lookup(q, StartingPointField) == Some(StartingPoint(req))
            && (!IsPrivate(n) ==>
                  Lookup(q, n) ==
                    if Lookup(req.fields, n).Some? && Carried(req, n) then Some(Get(req, n)) else None))
  {
    var q := RedirectFor(req, taskVerb, id, typ).query;
    assert JobField != IdField && JobField != StartingPointField && IdField != StartingPointField;
    assert Lookup(q, JobField) == Some(typ);
    assert Lookup(q[1..], IdField) == Some(id);
    if taskVerb != "PUT" {
      assert Lookup(q[1..][1..], StartingPointField) == Some(StartingPoint(req));
      if !IsPrivate(n) {
        var front, back := q[..3], q[3..];
        assert q == front + back;
        LookupExtends(front, back);
        assert Lookup(front, n) == None;
        ForwardedLookup(req, ArgumentNames(req.fields), n);
        assert n in ArgumentNames(req.fields) <==> Lookup(req.fields, n).Some?;
      }
    } else {
      assert q == [Field(JobField, typ), Field(IdField, id)];
    }
  }

  /** A continuation resumes the task: the followed request names the same task
      and action; after a non-`PUT` redirect it also keeps the restart URL, and
      a public name finds its original value when it was carried, and otherwise
      whatever the re-sent body holds (nothing, when the origin was a `GET`). */
  lemma ContinuationResumes(req: Request, taskVerb: string, id: string, typ: string,
                            body: seq<Field>, url: string, n: string)
    ensures var next := Follow(RedirectFor(req, taskVerb, id, typ), req.verb, body, url);
      && Get(next, JobField) == typ
      && Get(next, IdField) == id
      && (taskVerb == "PUT" ==> next.verb == "GET" && (Lookup(next.fields, n).Some? ==> IsPrivate(n)))
      && (taskVerb != "PUT" ==>
            && next.verb == req.verb
            && Get(next, StartingPointField) == StartingPoint(req)
            && StartingPoint(next) == StartingPoint(req)
            && (!IsPrivate(n) ==>
                  Lookup(next.fields, n) ==
                    if Lookup(req.fields, n).Some? && Carried(req, n) then Some(Get(req, n))
                    else if req.verb == "GET" then None else Lookup(body, n)))
  {
    var q := RedirectFor(req, taskVerb, id, typ).query;
    QueryLookup(req, taskVerb, id, typ, n);
    if taskVerb != "PUT" {
      LookupExtends(q, if req.verb == "GET" then [] else body);
    }
  }
}
