/** The generated router: two unrolled prefix-tree searches, against the path patterns
    of the API. Paths are the unescaped `URL.Path`, with an empty `RawPath`. */
module Router {
  import opened Domain

  datatype Operation = CreateOrder | GetOrder | PayOrder | CancelOrder

  const ORDERS := "/api/v1/orders"

  function HttpMethod(op: Operation): string {
    if op == GetOrder then "GET" else "POST"
  }

  /** What follows the path parameter. */
  function Suffix(op: Operation): string {
    match op
    case PayOrder => "/pay"
    case CancelOrder => "/cancel"
    case _ => ""
  }

  /** The path patterns: `/api/v1/orders`, `/api/v1/orders/{arg}`, `.../pay`, `.../cancel`. */
  function PathOf(op: Operation, arg: string): string {
    if op == CreateOrder then ORDERS else ORDERS + "/" + arg + Suffix(op)
  }

  predicate IsPath(op: Operation, arg: string, path: string) {
    && path == PathOf(op, arg)
    && '/' !in arg
    && (op == CreateOrder ==> arg == "")
  }

  /** The same below a configured prefix. */
  predicate IsPathUnder(prefix: string, op: Operation, arg: string, path: string) {
    prefix <= path && IsPath(op, arg, path[|prefix|..])
  }

  datatype Dispatch = NotFound | NotAllowed(allowed: string) | Handle(op: Operation, arg: string)

  /** What the API description says about a request. */
  ghost function Expected(prefix: string, verb: string, path: string): Dispatch {
    if exists op, arg :: IsPathUnder(prefix, op, arg, path) then
      var op, arg :| IsPathUnder(prefix, op, arg, path);
      if verb == HttpMethod(op) then Handle(op, arg) else NotAllowed(HttpMethod(op))
    else NotFound
  }

  /** `strings.IndexByte(s, '/')`. */
  function IndexSlash(s: string): (i: int)
    ensures -1 <= i < |s|
    ensures i < 0 ==> '/' !in s
    ensures i >= 0 ==> s[i] == '/' && '/' !in s[..i]
  {
    if s == "" then -1
    else if s[0] == '/' then 0
    else var i := IndexSlash(s[1..]); if i < 0 then -1 else i + 1
  }

  // ---- A path has one reading ----

  /** A slash-free reading cannot reach past the slash another reading stops at. */
  lemma {:induction false} NoLongerReading(arg: string, suffix: string, arg': string, suffix': string)
    requires arg + suffix == arg' + suffix'
    requires suffix == "" || suffix[0] == '/'
    requires '/' !in arg'
    ensures |arg'| <= |arg|
  {
    var whole := arg + suffix;
    assert forall k :: 0 <= k < |arg'| ==> whole[k] == arg'[k];
    assert suffix != "" ==> whole[|arg|] == suffix[0];
  }

  /** The rest of a path after `/api/v1/orders/` determines the parameter and the suffix. */
  lemma {:induction false} SplitUnique(arg: string, suffix: string, arg': string, suffix': string)
    requires arg + suffix == arg' + suffix'
    requires '/' !in arg && (suffix == "" || suffix[0] == '/')
    requires '/' !in arg' && (suffix' == "" || suffix'[0] == '/')
    ensures arg == arg' && suffix == suffix'
  {
    var whole := arg + suffix;
    NoLongerReading(arg, suffix, arg', suffix');
    NoLongerReading(arg', suffix', arg, suffix);
    assert arg == whole[..|arg|] && arg' == whole[..|arg'|];
    assert suffix == whole[|arg|..] && suffix' == whole[|arg'|..];
  }

  lemma {:induction false} SuffixDeterminesOp(op: Operation, op': Operation)
    requires op != CreateOrder && op' != CreateOrder && Suffix(op) == Suffix(op')
    ensures op == op'
  {
    assert |Suffix(PayOrder)| == 4 && |Suffix(CancelOrder)| == 7 && |Suffix(GetOrder)| == 0;
  }

  /** Which operations a path below `/api/v1/orders/` can mean. */
  lemma {:induction false} ReadingOf(elem: string, arg: string, suffix: string, op: Operation, arg': string)
    requires elem == ORDERS + "/" + arg + suffix
    requires '/' !in arg && (suffix == "" || suffix[0] == '/')
    ensures IsPath(op, arg', elem) <==> op != CreateOrder && arg' == arg && Suffix(op) == suffix
  {
    assert elem[|ORDERS| + 1..] == arg + suffix;
    if IsPath(op, arg', elem) {
      assert op != CreateOrder by {
        assert |elem| > |ORDERS|;
      }
      assert elem[|ORDERS| + 1..] == arg' + Suffix(op);
      SplitUnique(arg, suffix, arg', Suffix(op));
    }
  }

  /** No two patterns match one path, and a pattern matches it in one way. */
  lemma {:induction false} OneReading(prefix: string, op: Operation, arg: string, op': Operation, arg': string, path: string)
    requires IsPathUnder(prefix, op, arg, path) && IsPathUnder(prefix, op', arg', path)
    ensures op == op' && arg == arg'
  {
    var elem := path[|prefix|..];
    if op != CreateOrder {
      ReadingOf(elem, arg, Suffix(op), op', arg');
      SuffixDeterminesOp(op, op');
    } else if op' != CreateOrder {
      ReadingOf(elem, arg', Suffix(op'), op, arg);
    }
  }

  /** A request is handled as `op` with parameter `arg` exactly when its path is the pattern
      of `op` filled with `arg`, below the prefix, and its method is the one of `op`. */
  lemma {:induction false} ExpectedExactly(prefix: string, verb: string, path: string, op: Operation, arg: string)
    ensures Expected(prefix, verb, path) == Handle(op, arg)
       <==> IsPathUnder(prefix, op, arg, path) && verb == HttpMethod(op)
  {
    if exists o, a :: IsPathUnder(prefix, o, a, path) {
      var o, a :| IsPathUnder(prefix, o, a, path)
               && Expected(prefix, verb, path) == if verb == HttpMethod(o) then Handle(o, a)
                                                  else NotAllowed(HttpMethod(o));
      if IsPathUnder(prefix, op, arg, path) {
        OneReading(prefix, op, arg, o, a, path);
      }
    }
  }

  lemma {:induction false} ExpectedIs(prefix: string, verb: string, path: string, op: Operation, arg: string)
    requires IsPathUnder(prefix, op, arg, path)
    ensures Expected(prefix, verb, path) ==
            if verb == HttpMethod(op) then Handle(op, arg) else NotAllowed(HttpMethod(op))
  {
    forall o, a | IsPathUnder(prefix, o, a, path)
      ensures o == op && a == arg
    {
      OneReading(prefix, op, arg, o, a, path);
    }
  }

  /** A configured prefix only shifts the language. */
  lemma {:induction false} PrefixShifts(prefix: string, verb: string, path: string)
    ensures Expected(prefix, verb, prefix + path) == Expected("", verb, path)
    ensures !(prefix <= path) ==> Expected(prefix, verb, path) == NotFound
  {
    assert (prefix + path)[|prefix|..] == path;
    assert path[|""|..] == path;
    forall op, arg
      ensures IsPathUnder(prefix, op, arg, prefix + path) <==> IsPathUnder("", op, arg, path)
    {
    }
    if exists op, arg :: IsPathUnder("", op, arg, path) {
      var op, arg :| IsPathUnder("", op, arg, path);
      ExpectedIs("", verb, path, op, arg);
      ExpectedIs(prefix, verb, prefix + path, op, arg);
    }
  }

  // ---- The unrolled searches ----

  /** `len(elem) >= l && elem[0:l] == text`, then `elem = elem[l:]`. */
  function Cut(elem: string, text: string): (rest: Option<string>)
    ensures rest.Some? ==> text <= elem && rest.value == elem[|text|..] && elem == text + rest.value
    ensures rest == Some("") <==> elem == text
    ensures rest == None <==> !(text <= elem)
  {
    if |elem| >= |text| && elem[..|text|] == text then Some(elem[|text|..]) else None
  }

  function CutPrefix(prefix: string, path: string): Option<string> {
    if prefix == "" then Some(path)
    else if prefix <= path then Some(path[|prefix|..])
    else None
  }

  ghost predicate NoReading(elem: string) {
    forall op, arg :: !IsPath(op, arg, elem)
  }

  lemma {:induction false} NothingExpected(prefix: string, verb: string, path: string)
    requires prefix <= path ==> NoReading(path[|prefix|..])
    ensures Expected(prefix, verb, path) == NotFound
  {
  }

  lemma {:induction false} NotBelowPrefix(prefix: string, verb: string, path: string)
    requires CutPrefix(prefix, path) == None
    ensures Expected(prefix, verb, path) == NotFound
  {
    NothingExpected(prefix, verb, path);
  }

  lemma {:induction false} PathsStartWithOrders(op: Operation, arg: string)
    ensures ORDERS <= PathOf(op, arg)
    ensures |PathOf(op, arg)| > |ORDERS| ==> PathOf(op, arg)[|ORDERS|] == '/'
  {
    assert op != CreateOrder ==> PathOf(op, arg) == ORDERS + ("/" + arg + Suffix(op));
  }

  lemma {:induction false} NotOrders(prefix: string, verb: string, path: string, elem: string)
    requires CutPrefix(prefix, path) == Some(elem)
    requires !(ORDERS <= elem) || (|elem| > |ORDERS| && elem[|ORDERS|] != '/')
    ensures Expected(prefix, verb, path) == NotFound
  {
    forall op, arg
      ensures !IsPath(op, arg, elem)
    {
      PathsStartWithOrders(op, arg);
    }
    assert elem == path[|prefix|..];
    NothingExpected(prefix, verb, path);
  }

  lemma {:induction false} AtRoot(prefix: string, verb: string, path: string, elem: string)
    requires CutPrefix(prefix, path) == Some(elem)
    requires ORDERS <= elem && elem[|ORDERS|..] == ""
    ensures Expected(prefix, verb, path) == if verb == "POST" then Handle(CreateOrder, "") else NotAllowed("POST")
  {
    assert elem == ORDERS && elem == path[|prefix|..];
    ExpectedIs(prefix, verb, path, CreateOrder, "");
  }

  /** The search has read `/api/v1/orders/` and the parameter, and `suffix` is left. */
  ghost predicate AfterParam(prefix: string, path: string, arg: string, suffix: string) {
    && prefix <= path
    && path[|prefix|..] == ORDERS + "/" + arg + suffix
    && '/' !in arg
    && (suffix == "" || suffix[0] == '/')
  }

  lemma {:induction false} ReadsParam(prefix: string, path: string, elem: string, idx: nat)
    requires CutPrefix(prefix, path) == Some(elem) && ORDERS <= elem
    requires |elem| > |ORDERS| && elem[|ORDERS|] == '/'
    requires var rest := elem[|ORDERS|..][1..];
             idx <= |rest| && '/' !in rest[..idx] && (idx < |rest| ==> rest[idx] == '/')
    ensures var rest := elem[|ORDERS|..][1..]; AfterParam(prefix, path, rest[..idx], rest[idx..])
  {
    var rest := elem[|ORDERS|..][1..];
    assert elem == path[|prefix|..];
    assert elem == elem[..|ORDERS|] + elem[|ORDERS|..];
    assert rest == rest[..idx] + rest[idx..];
  }

  lemma {:induction false} AtParam(prefix: string, verb: string, path: string, arg: string, suffix: string)
    requires AfterParam(prefix, path, arg, suffix) && suffix == ""
    ensures Expected(prefix, verb, path) == if verb == "GET" then Handle(GetOrder, arg) else NotAllowed("GET")
  {
    assert suffix == Suffix(GetOrder);
    ExpectedIs(prefix, verb, path, GetOrder, arg);
  }

  lemma {:induction false} AtPay(prefix: string, verb: string, path: string, arg: string, suffix: string)
    requires AfterParam(prefix, path, arg, suffix) && suffix != "" && suffix[1..] == "pay"
    ensures Expected(prefix, verb, path) == if verb == "POST" then Handle(PayOrder, arg) else NotAllowed("POST")
  {
    assert suffix == Suffix(PayOrder);
    ExpectedIs(prefix, verb, path, PayOrder, arg);
  }

  lemma {:induction false} AtCancel(prefix: string, verb: string, path: string, arg: string, suffix: string)
    requires AfterParam(prefix, path, arg, suffix) && suffix != "" && suffix[1..] == "cancel"
    ensures Expected(prefix, verb, path) == if verb == "POST" then Handle(CancelOrder, arg) else NotAllowed("POST")
  {
    assert suffix == Suffix(CancelOrder);
    ExpectedIs(prefix, verb, path, CancelOrder, arg);
  }

  lemma {:induction false} NoLeaf(prefix: string, verb: string, path: string, arg: string, suffix: string)
    requires AfterParam(prefix, path, arg, suffix)
    requires suffix != "" && suffix[1..] != "pay" && suffix[1..] != "cancel"
    ensures Expected(prefix, verb, path) == NotFound
  {
    var elem := path[|prefix|..];
    forall op, arg'
      ensures !IsPath(op, arg', elem)
    {
      ReadingOf(elem, arg, suffix, op, arg');
      assert Suffix(PayOrder)[1..] == "pay" && Suffix(CancelOrder)[1..] == "cancel";
    }
    NothingExpected(prefix, verb, path);
  }

  /** `ServeHTTP`, up to the call of the operation's handler. */
  method ServeHTTP(prefix: string, verb: string, path: string) returns (d: Dispatch)
    ensures d == Expected(prefix, verb, path)
  {
    hide Expected, IsPathUnder, AfterParam, Cut, CutPrefix, PathOf, IndexSlash, Suffix, HttpMethod;
    var cut := CutPrefix(prefix, path);
    if cut.None? {
      NotBelowPrefix(prefix, verb, path);
      return NotFound;
    }
    var elem := cut.value;
    ghost var whole := elem;
    var below := Cut(elem, ORDERS);
    if |elem| == 0 || elem[0] != '/' || below.None? {
      NotOrders(prefix, verb, path, whole);
      return NotFound;
    }
    elem := below.value;
    if |elem| == 0 {
      AtRoot(prefix, verb, path, whole);
      if verb == "POST" {
        return Handle(CreateOrder, "");
      } else {
        return NotAllowed("POST");
      }
    }
    if elem[0] != '/' {
      NotOrders(prefix, verb, path, whole);
      return NotFound;
    }
    elem := elem[1..];
    var idx := IndexSlash(elem);
    if idx < 0 {
      idx := |elem|;
    }
    ReadsParam(prefix, path, whole, idx);
    var arg := elem[..idx];
    elem := elem[idx..];
    if |elem| == 0 {
      AtParam(prefix, verb, path, arg, "");
      if verb == "GET" {
        return Handle(GetOrder, arg);
      } else {
        return NotAllowed("GET");
      }
    }
    ghost var suffix := elem;
    elem := elem[1..];
    if |elem| != 0 && elem[0] == 'c' {
      var rest := Cut(elem, "cancel");
      if rest.Some? {
        elem := rest.value;
        if elem == "" {
          AtCancel(prefix, verb, path, arg, suffix);
          if verb == "POST" {
            return Handle(CancelOrder, arg);
          } else {
            return NotAllowed("POST");
          }
        }
      }
    } else if |elem| != 0 && elem[0] == 'p' {
      var rest := Cut(elem, "pay");
      if rest.Some? {
        elem := rest.value;
        if elem == "" {
          AtPay(prefix, verb, path, arg, suffix);
          if verb == "POST" {
            return Handle(PayOrder, arg);
          } else {
            return NotAllowed("POST");
          }
        }
      }
    }
    NoLeaf(prefix, verb, path, arg, suffix);
    return NotFound;
  }

  /** The names, summary and path pattern of a route are constants of its operation. */
  datatype Route = Route(op: Operation, args: seq<string>)

  /** `FindPath` fills in a route instead of calling a handler; a wrong method is no match. */
  method FindPath(prefix: string, verb: string, path: string) returns (r: Route, ok: bool)
    ensures ok <==> Expected(prefix, verb, path).Handle?
    ensures ok ==> var d := Expected(prefix, verb, path);
              r == Route(d.op, if d.op == CreateOrder then [] else [d.arg])
  {
    hide Expected, IsPathUnder, AfterParam, Cut, CutPrefix, PathOf, IndexSlash, Suffix, HttpMethod;
    r, ok := Route(CreateOrder, []), false;
    var cut := CutPrefix(prefix, path);
    if cut.None? {
      NotBelowPrefix(prefix, verb, path);
      return;
    }
    var elem := cut.value;
    ghost var whole := elem;
    var below := Cut(elem, ORDERS);
    if |elem| == 0 || elem[0] != '/' || below.None? {
      NotOrders(prefix, verb, path, whole);
      return;
    }
    elem := below.value;
    if |elem| == 0 {
      AtRoot(prefix, verb, path, whole);
      if verb == "POST" {
        return Route(CreateOrder, []), true;
      } else {
        return;
      }
    }
    if elem[0] != '/' {
      NotOrders(prefix, verb, path, whole);
      return;
    }
    elem := elem[1..];
    var idx := IndexSlash(elem);
    if idx < 0 {
      idx := |elem|;
    }
    ReadsParam(prefix, path, whole, idx);
    var arg := elem[..idx];
    elem := elem[idx..];
    if |elem| == 0 {
      AtParam(prefix, verb, path, arg, "");
      if verb == "GET" {
        return Route(GetOrder, [arg]), true;
      } else {
        return;
      }
    }
    ghost var suffix := elem;
    elem := elem[1..];
    if |elem| != 0 && elem[0] == 'c' {
      var rest := Cut(elem, "cancel");
      if rest.Some? {
        elem := rest.value;
        if elem == "" {
          AtCancel(prefix, verb, path, arg, suffix);
          if verb == "POST" {
            return Route(CancelOrder, [arg]), true;
          } else {
            return;
          }
        }
      }
    } else if |elem| != 0 && elem[0] == 'p' {
      var rest := Cut(elem, "pay");
      if rest.Some? {
        elem := rest.value;
        if elem == "" {
          AtPay(prefix, verb, path, arg, suffix);
          if verb == "POST" {
            return Route(PayOrder, [arg]), true;
          } else {
            return;
          }
        }
      }
    }
    NoLeaf(prefix, verb, path, arg, suffix);
  }
}
