/** What templates and conditions mean: the resolution and the evaluation meet a declarative reading of them
    (internal/skillruntime/template.go, internal/skillruntime/condition.go). */
module TemplateMeaning {
  import opened Templates
  import opened Wrappers

  function Concat(parts: seq<string>): string {
    if parts == [] then "" else parts[0] + Concat(parts[1..])
  }

  /** A literal stands for itself, and a reference for its value as text. */
  predicate Fills(render: Render, piece: Piece, b: Bindings, part: string) {
    match piece
    case Lit(text) => part == text
    case Ref(path) => LookupPath(b, path).Some? && part == render.text(LookupPath(b, path).value)
  }

  ghost predicate AllFill(render: Render, pieces: seq<Piece>, b: Bindings, parts: seq<string>) {
    |parts| == |pieces| && forall i | 0 <= i < |pieces| :: Fills(render, pieces[i], b, parts[i])
  }

  lemma FillsTail(render: Render, pieces: seq<Piece>, b: Bindings, parts: seq<string>)
    requires pieces != [] && parts != []
    ensures AllFill(render, pieces, b, parts) <==>
            Fills(render, pieces[0], b, parts[0]) && AllFill(render, pieces[1..], b, parts[1..])
  {
    hide Fills;
    if Fills(render, pieces[0], b, parts[0]) && AllFill(render, pieces[1..], b, parts[1..]) {
      forall i | 0 <= i < |pieces| ensures Fills(render, pieces[i], b, parts[i]) {
        assert i > 0 ==> pieces[i] == pieces[1..][i - 1] && parts[i] == parts[1..][i - 1];
      }
    }
    if AllFill(render, pieces, b, parts) {
      forall i | 0 <= i < |pieces[1..]| ensures Fills(render, pieces[1..][i], b, parts[1..][i]) {
        assert pieces[1..][i] == pieces[i + 1] && parts[1..][i] == parts[i + 1];
      }
    }
  }

  /** Mixed text resolves to the concatenation of its parts, and fails exactly if some part is missing. */
  lemma {:induction false} PiecesFill(render: Render, pieces: seq<Piece>, b: Bindings, out: string)
    ensures ResolvePieces(render, pieces, b) == Some(out) <==> exists parts :: AllFill(render, pieces, b, parts) && Concat(parts) == out
  {
    if pieces == [] {
      assert AllFill(render, pieces, b, []);
    } else {
      if ResolvePieces(render, pieces, b) == Some(out) {
        var rest := ResolvePieces(render, pieces[1..], b).value;
        PiecesFill(render, pieces[1..], b, rest);
        var parts :| AllFill(render, pieces[1..], b, parts) && Concat(parts) == rest;
        var all := [if pieces[0].Lit? then pieces[0].text else render.text(LookupPath(b, pieces[0].path).value)] + parts;
        assert all[1..] == parts;
        FillsTail(render, pieces, b, all);
      }
      forall parts | AllFill(render, pieces, b, parts) && Concat(parts) == out
        ensures ResolvePieces(render, pieces, b) == Some(out)
      {
        PiecesFill(render, pieces[1..], b, Concat(parts[1..]));
        FillsTail(render, pieces, b, parts);
      }
    }
  }

  /** The argument stands for this value: a lone reference for the value itself, other text for the filled
      text, a structure for the structure of what its parts stand for. */
  ghost predicate Means(render: Render, a: Arg, b: Bindings, v: Value) {
    match a
    case Plain(w) => v == w
    case Text(pieces) =>
      if |pieces| == 1 && pieces[0].Ref? then LookupPath(b, pieces[0].path) == Some(v)
      else v.Str? && exists parts :: AllFill(render, pieces, b, parts) && Concat(parts) == v.s
    case ObjArg(fs) => v.Obj? && v.fields.Keys == fs.Keys && forall k | k in fs :: Means(render, fs[k], b, v.fields[k])
    case ArrArg(xs) => v.Arr? && |v.items| == |xs| && forall i | 0 <= i < |xs| :: Means(render, xs[i], b, v.items[i])
  }

  lemma ArgsAre(render: Render, args: map<string, Arg>, b: Bindings, input: Bindings)
    ensures ResolveArgs(render, args, b) == Some(input) <==>
            input.Keys == args.Keys && forall k | k in args :: ResolveArg(render, args[k], b) == Some(input[k])
  {
    hide ResolveArg;
    if forall k | k in args :: ResolveArg(render, args[k], b).Some? {
      var r := ResolveArgs(render, args, b).value;
      assert r.Keys == args.Keys;
      assert forall k | k in args :: r[k] == ResolveArg(render, args[k], b).value;
      if input.Keys == args.Keys && forall k | k in args :: ResolveArg(render, args[k], b) == Some(input[k]) {
        assert forall k | k in args :: r[k] == input[k];
        assert r == input;
      }
    }
  }

  lemma ObjectIs(render: Render, fs: map<string, Arg>, b: Bindings)
    ensures var r := ResolveArgs(render, fs, b);
            ResolveArg(render, ObjArg(fs), b) == if r.Some? then Some(Obj(r.value)) else None
  {
    var r := ResolveArg(render, ObjArg(fs), b);
    if r.Some? {
      ArgsAre(render, fs, b, r.value.fields);
    }
  }

  lemma ArrayIs(render: Render, xs: seq<Arg>, b: Bindings, items: seq<Value>)
    requires |items| == |xs|
    ensures ResolveArg(render, ArrArg(xs), b) == Some(Arr(items)) <==>
            forall i | 0 <= i < |xs| :: ResolveArg(render, xs[i], b) == Some(items[i])
  {
    var r := ResolveArg(render, ArrArg(xs), b);
    if r.Some? && forall i | 0 <= i < |xs| :: ResolveArg(render, xs[i], b) == Some(items[i]) {
      assert r.value.items == items;
    }
  }

  lemma {:induction false} ResolvesIffMeans(render: Render, a: Arg, b: Bindings, v: Value)
    ensures ResolveArg(render, a, b) == Some(v) <==> Means(render, a, b, v)
  {
    match a
    case Plain(_) =>
    case Text(pieces) =>
      if v.Str? {
        PiecesFill(render, pieces, b, v.s);
      }
    case ObjArg(fs) =>
      if v.Obj? && v.fields.Keys == fs.Keys {
        forall k | k in fs ensures ResolveArg(render, fs[k], b) == Some(v.fields[k]) <==> Means(render, fs[k], b, v.fields[k]) {
          ResolvesIffMeans(render, fs[k], b, v.fields[k]);
        }
        ArgsAre(render, fs, b, v.fields);
      }
      ObjectIs(render, fs, b);
      if ResolveArgs(render, fs, b).Some? {
        ArgsAre(render, fs, b, ResolveArgs(render, fs, b).value);
      }
    case ArrArg(xs) =>
      if v.Arr? && |v.items| == |xs| {
        forall i | 0 <= i < |xs| ensures ResolveArg(render, xs[i], b) == Some(v.items[i]) <==> Means(render, xs[i], b, v.items[i]) {
          ResolvesIffMeans(render, xs[i], b, v.items[i]);
        }
        ArrayIs(render, xs, b, v.items);
      }
  }

  /** A call's input holds each argument of its step, standing for its value. */
  lemma InputsMean(render: Render, args: map<string, Arg>, b: Bindings, input: Bindings)
    ensures ResolveArgs(render, args, b) == Some(input) <==>
            input.Keys == args.Keys && forall k | k in args :: Means(render, args[k], b, input[k])
  {
    ArgsAre(render, args, b, input);
    hide ResolveArg, Means;
    forall k, v | k in args ensures ResolveArg(render, args[k], b) == Some(v) <==> Means(render, args[k], b, v) {
      ResolvesIffMeans(render, args[k], b, v);
    }
  }

  /** For a path without blank parts, a condition and a template see the same value; an equation compares the
      text that the reference would put into a template, wherever the two renderings agree on that value. */
  lemma ConditionsSeeTemplates(render: Render, path: Path, text: string, b: Bindings)
    requires path != [] && "" !in path
    ensures var seen := ResolveText(render, [Ref(path)], b);
            && (EvalCondition(render, Exists(path), b) <==> seen.Some?)
            && (EvalCondition(render, Truthy(path), b) <==> seen.Some? && seen.value !in {Null, Bool(false), Num(0.0), Str("")})
            && (EvalCondition(render, Equals(path, text), b) <==> seen.Some? && render.compared(seen.value) == text)
            && (seen.Some? && render.compared(seen.value) == render.text(seen.value) ==>
                  (EvalCondition(render, Equals(path, text), b) <==> ResolveText(render, [Lit(""), Ref(path)], b) == Some(Str(text))))
    ensures EvalCondition(render, Differs(path, text), b) <==>
            if EvalCondition(render, Exists(path), b) then !EvalCondition(render, Equals(path, text), b) else text != ""
  {
    var pieces := [Lit(""), Ref(path)];
    assert pieces[1..] == [Ref(path)] && pieces[1..][1..] == [];
    if LookupPath(b, path).Some? {
      var v := LookupPath(b, path).value;
      assert ResolvePieces(render, [Ref(path)], b) == Some(render.text(v) + "");
      assert "" + (render.text(v) + "") == render.text(v);
    }
  }
}
