/** Dynamic values, skill argument templates and step conditions
    (internal/skillruntime/template.go, internal/skillruntime/condition.go).

    An argument string is kept in parsed form, as a sequence of literal text and
    `{{ path }}` references; a path is the list of its trimmed, dot-separated parts. */
module Templates {
  import opened Wrappers

  /** A decoded JSON value. */
  datatype Value =
    | Null
    | Bool(b: bool)
    | Num(n: real)
    | Str(s: string)
    | Obj(fields: map<string, Value>)
    | Arr(items: seq<Value>)

  type Bindings = map<string, Value>

  /** How a value reads as part of a text (fmt.Sprint), and how a condition compares it (strconv); the two
      differ, for instance on numbers of seven digits. */
  datatype Render = Render(text: Value -> string, compared: Value -> string)

  type Path = seq<string>

  datatype Piece = Lit(text: string) | Ref(path: Path)

  datatype Arg =
    | Text(pieces: seq<Piece>)
    | ObjArg(fields: map<string, Arg>)
    | ArrArg(items: seq<Arg>)
    | Plain(v: Value)

  /** A parsed condition expression; `Always` is the empty one. */
  datatype Cond =
    | Always
    | Truthy(path: Path)
    | Equals(path: Path, text: string)
    | Differs(path: Path, text: string)
    | Exists(path: Path)

  function Descend(cur: Value, path: Path): Option<Value> {
    if path == [] then Some(cur)
    else if !cur.Obj? || path[0] !in cur.fields then None
    else Descend(cur.fields[path[0]], path[1..])
  }

  /** Template lookup; an empty part never resolves. */
  function LookupPath(b: Bindings, path: Path): Option<Value> {
    if path == [] || "" in path then None else Descend(Obj(b), path)
  }

  /** Condition lookup, which has no test for empty parts. */
  function ConditionLookup(b: Bindings, path: Path): Option<Value> {
    if path == [] then None else Descend(Obj(b), path)
  }

  /** One cursor that descends part by part. */
  method WalkPath(b: Bindings, path: Path) returns (r: Option<Value>)
    ensures r == LookupPath(b, path)
  {
    if path == [] {
      return None;
    }
    var cur := Obj(b);
    for i := 0 to |path|
      invariant "" !in path[..i]
      invariant Descend(Obj(b), path) == Descend(cur, path[i..])
    {
      var part := path[i];
      assert path[i..][1..] == path[i + 1..];
      if part == "" || !cur.Obj? || part !in cur.fields {
        return None;
      }
      cur := cur.fields[part];
      assert path[..i + 1] == path[..i] + [part];
    }
    assert path[..|path|] == path;
    return Some(cur);
  }

  function ResolvePieces(render: Render, pieces: seq<Piece>, b: Bindings): Option<string> {
    if pieces == [] then Some("")
    else
      var rest := ResolvePieces(render, pieces[1..], b);
      match pieces[0]
      case Lit(text) => if rest.Some? then Some(text + rest.value) else None
      case Ref(path) =>
        var v := LookupPath(b, path);
        if v.Some? && rest.Some? then Some(render.text(v.value) + rest.value) else None
  }

  /** A lone reference keeps its native value; mixed text is rendered and concatenated. */
  function ResolveText(render: Render, pieces: seq<Piece>, b: Bindings): Option<Value> {
    if |pieces| == 1 && pieces[0].Ref? then LookupPath(b, pieces[0].path)
    else
      var t := ResolvePieces(render, pieces, b);
      if t.Some? then Some(Str(t.value)) else None
  }

  function ResolveArg(render: Render, a: Arg, b: Bindings): Option<Value> {
    match a
    case Text(pieces) => ResolveText(render, pieces, b)
    case Plain(v) => Some(v)
    case ObjArg(fs) =>
      if forall k | k in fs :: ResolveArg(render, fs[k], b).Some?
      then Some(Obj(map k | k in fs :: ResolveArg(render, fs[k], b).value))
      else None
    case ArrArg(xs) =>
      if forall i | 0 <= i < |xs| :: ResolveArg(render, xs[i], b).Some?
      then Some(Arr(seq(|xs|, i requires 0 <= i < |xs| => ResolveArg(render, xs[i], b).value)))
      else None
  }

  /** None stands for the error "unresolved template", which the runtime records as TEMPLATE_ERROR. */
  function ResolveArgs(render: Render, args: map<string, Arg>, b: Bindings): Option<Bindings> {
    if forall k | k in args :: ResolveArg(render, args[k], b).Some?
    then Some(map k | k in args :: ResolveArg(render, args[k], b).value)
    else None
  }

  predicate IsTruthy(v: Value) {
    match v
    case Null => false
    case Bool(b) => b
    case Num(n) => n != 0.0
    case Str(s) => s != ""
    case Obj(_) => true
    case Arr(_) => true
  }

  predicate EvalCondition(render: Render, c: Cond, b: Bindings) {
    match c
    case Always => true
    case Truthy(path) =>
      var v := ConditionLookup(b, path);
      v.Some? && IsTruthy(v.value)
    case Equals(path, text) =>
      var v := ConditionLookup(b, path);
      v.Some? && render.compared(v.value) == text
    case Differs(path, text) =>
      var v := ConditionLookup(b, path);
      if v.None? then text != "" else render.compared(v.value) != text
    case Exists(path) => ConditionLookup(b, path).Some?
  }
}
