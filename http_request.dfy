/** The part of a webapp2 request that the long-task handler reads: its method (`verb`),
    path, full URL and the query-string / form fields in arrival order. */
module HttpRequest {
  import opened Options

  /** One name/value pair of a query string or form body. */
  datatype Field = Field(name: string, value: string)

  datatype Request = Request(verb: string, path: string, url: string, fields: seq<Field>)

  /** Field names starting with `_` belong to the protocol and are never
      handed to the task. */
  predicate IsPrivate(name: string)
  {
    |name| > 0 && name[0] == '_'
  }

  /** Field `i` is the first one called `name`. */
  predicate FirstOccurrence(fields: seq<Field>, name: string, i: int)
  {
    0 <= i < |fields| && fields[i].name == name && forall j | 0 <= j < i :: fields[j].name != name
  }

  /** The value of the first field called `name`, as `request.get` picks it. */
  function Lookup(fields: seq<Field>, name: string): (r: Option<string>)
    ensures r.Some? ==> Field(name, r.value) in fields
    ensures forall i | FirstOccurrence(fields, name, i) :: r == Some(fields[i].value)
    ensures r.None? ==> forall f | f in fields :: f.name != name
  {
    if fields == [] then None
    else if fields[0].name == name then Some(fields[0].value)
    else
      var rest := Lookup(fields[1..], name);
      assert forall i | FirstOccurrence(fields, name, i) :: FirstOccurrence(fields[1..], name, i - 1) by {
        forall i | FirstOccurrence(fields, name, i) ensures FirstOccurrence(fields[1..], name, i - 1) {
          assert forall j | 0 <= j < i - 1 :: fields[1..][j] == fields[j + 1];
        }
      }
      rest
  }

  /** `request.get(name, default)`: the first value when the field is present
      (even if empty), `default` otherwise. */
  function GetOr(req: Request, name: string, default: string): string
  {
    Lookup(req.fields, name).GetOr(default)
  }

  /** `request.get(name)`, whose default is the empty string. */
  function Get(req: Request, name: string): string
  {
    GetOr(req, name, "")
  }

  /** `request.arguments()`: every field name once, in the order of first
      appearance. */
  function ArgumentNames(fields: seq<Field>): (names: seq<string>)
    ensures forall f | f in fields :: f.name in names
    ensures forall n | n in names :: Lookup(fields, n).Some?
    ensures forall i, j | 0 <= i < j < |names| :: names[i] != names[j]
  {
    if fields == [] then []
    else
      var k := |fields| - 1;
      var earlier := ArgumentNames(fields[..k]);
      assert fields[..k] + [fields[k]] == fields;
      AppendName(fields[..k], fields[k], earlier);
      if fields[k].name in earlier then earlier else earlier + [fields[k].name]
  }

  /** One more field keeps the facts `ArgumentNames` states: its name is
      listed, once, and every listed name is found. */
  lemma AppendName(front: seq<Field>, last: Field, earlier: seq<string>)
    requires forall f | f in front :: f.name in earlier
    requires forall n | n in earlier :: Lookup(front, n).Some?
    requires forall i, j | 0 <= i < j < |earlier| :: earlier[i] != earlier[j]
    ensures var names := if last.name in earlier then earlier else earlier + [last.name];
      && (forall f | f in front + [last] :: f.name in names)
      && (forall n | n in names :: Lookup(front + [last], n).Some?)
      && (forall i, j | 0 <= i < j < |names| :: names[i] != names[j])
  {
    LookupExtends(front, [last]);
    assert Lookup([last], last.name) == Some(last.value);
  }

  /** Appending fields never changes a lookup that already succeeds, and
      otherwise the lookup continues into the appended part. */
  lemma {:induction false} LookupExtends(front: seq<Field>, back: seq<Field>)
    ensures forall n :: Lookup(front + back, n)
                        == if Lookup(front, n).Some? then Lookup(front, n) else Lookup(back, n)
  {
    if front != [] {
      LookupExtends(front[1..], back);
      assert (front + back)[1..] == front[1..] + back;
    } else {
      assert front + back == back;
    }
  }
}
