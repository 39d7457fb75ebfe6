/** `prepare_task`: the dictionary of job parameters a new task is created with,
    and the decimal names `arg0`, `arg1`, ... under which positional route
    arguments are stored. */
module Parameters {
  import opened HttpRequest

  /** The job's input, as it is stored in the record and handed to the work. */
  type Parameters = map<string, string>

  function DigitChar(d: nat): char
    requires d < 10
  {
    "0123456789"[d]
  }

  /** Decimal notation of `n`, as Python's `%d` writes it. */
  function Digits(n: nat): (s: string)
    ensures |s| >= 1
    ensures n >= 10 ==> |s| >= 2
  {
    if n < 10 then [DigitChar(n)] else Digits(n / 10) + [DigitChar(n % 10)]
  }

  /** Two numbers with the same decimal notation are equal. */
  lemma {:induction false} DigitsInjective(a: nat, b: nat)
    requires Digits(a) == Digits(b)
    ensures a == b
  {
    var s := Digits(a);
    assert DigitChar(a % 10) == s[|s| - 1] == DigitChar(b % 10);
    assert a % 10 == b % 10;
    if a >= 10 && b >= 10 {
      assert Digits(a / 10) == s[..|s| - 1] == Digits(b / 10);
      DigitsInjective(a / 10, b / 10);
    }
  }

  /** The key `"arg%d" % i` under which the i-th positional argument is stored. */
  function ArgName(i: nat): string
  {
    "arg" + Digits(i)
  }

  lemma ArgNameInjective()
    ensures forall i: nat, j: nat :: ArgName(i) == ArgName(j) ==> i == j
  {
    forall i: nat, j: nat | ArgName(i) == ArgName(j) ensures i == j {
      assert Digits(i) == ArgName(i)[3..] == ArgName(j)[3..] == Digits(j);
      DigitsInjective(i, j);
    }
  }

  /** The fields of the request whose names do not start with `_`, each with
      its (first) value. */
  function RequestParameters(req: Request): Parameters
  {
    map n | n in ArgumentNames(req.fields) && !IsPrivate(n) :: Get(req, n)
  }

  /** The entries `argI := args[I]` that the `enumerate(args)` loop writes. */
  function ArgEntries(args: seq<string>): Parameters
  {
    if args == [] then map[]
    else ArgEntries(args[..|args| - 1])[ArgName(|args| - 1) := args[|args| - 1]]
  }

  /** The dictionary `prepare_task(*args, **kwargs)` returns: request fields,
      overridden by keyword arguments, overridden by positional arguments. */
  function PreparedParameters(req: Request, args: seq<string>, kwargs: Parameters): Parameters
  {
    RequestParameters(req) + kwargs + ArgEntries(args)
  }

  /** Positional argument i ends up under `ArgName(i)`, and nothing else is
      written by the loop. */
  lemma {:induction false} ArgEntriesAt(args: seq<string>)
    ensures forall i | 0 <= i < |args| :: ArgName(i) in ArgEntries(args) && ArgEntries(args)[ArgName(i)] == args[i]
    ensures forall k | k in ArgEntries(args) :: exists i :: 0 <= i < |args| && k == ArgName(i)
  {
    if args != [] {
      var n := |args| - 1;
      ArgEntriesAt(args[..n]);
      ArgNameInjective();
      forall i | 0 <= i < |args|
        ensures ArgName(i) in ArgEntries(args) && ArgEntries(args)[ArgName(i)] == args[i]
      {
        if i < n {
          assert args[..n][i] == args[i];
        }
      }
    }
  }

  /** What each key of the prepared dictionary holds: a positional argument
      wins over a keyword argument, which wins over a request field; fields
      whose names start with `_` are never copied. */
  lemma PreparedParametersAt(req: Request, args: seq<string>, kwargs: Parameters, name: string)
    ensures var p := PreparedParameters(req, args, kwargs);
      && (forall i | 0 <= i < |args| :: ArgName(i) in p && p[ArgName(i)] == args[i])
      && ((forall i | 0 <= i < |args| :: name != ArgName(i)) ==>
            && (name in kwargs ==> name in p && p[name] == kwargs[name])
            && (name !in kwargs && !IsPrivate(name) && Lookup(req.fields, name).Some? ==>
                  name in p && p[name] == Get(req, name))
            && (name in p <==> name in kwargs || (!IsPrivate(name) && Lookup(req.fields, name).Some?)))
  {
    ArgEntriesAt(args);
  }

  /** The parameter dictionary is built as the source builds it: the request
      fields, then `update(kwargs)`, then one entry per positional argument. */
  method PrepareTask(req: Request, args: seq<string>, kwargs: Parameters) returns (parameters: Parameters)
    ensures parameters == PreparedParameters(req, args, kwargs)
  {
    var base := RequestParameters(req) + kwargs;
    parameters := base;
    for i := 0 to |args|
      invariant parameters == base + ArgEntries(args[..i])
    {
      assert args[..i + 1][..i] == args[..i];
      UnionUpdate(base, ArgEntries(args[..i]), ArgName(i), args[i]);
      parameters := parameters[ArgName(i) := args[i]];
    }
    assert args[..|args|] == args;
  }

  /** Writing one key after a union is writing it into the right operand. */
  lemma UnionUpdate(a: Parameters, b: Parameters, k: string, v: string)
    ensures (a + b)[k := v] == a + b[k := v]
  {
  }
}
