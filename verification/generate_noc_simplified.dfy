/** `generate_noc_simplified.py`: mesh links only (it takes no topology),
    one external port per router that is a master port when any of the
    router's nodes is a master, bare instances, and two east/west bundle
    assignments per link.

    As written, the port-kind expression puts a Python list comprehension
    inside a Jinja2 expression. Jinja2 has no comprehensions: its list
    display is `[` expressions separated by commas `]`, so template
    construction stops with a syntax error before anything is rendered.
    `Emit` below is the evidently intended output; `EmitAsWritten` is what
    the script does. */
module GenerateNocSimplified {
  import opened Fabric
  import opened CoordLookup
  import opened Adjacency
  import opened Wiring
  import opened BundleLinks
  import GenerateNoc

  /** Tokens of a Jinja2 list display. `Primary` is a complete operand such
      as `n.type`; `Word` is a name that cannot continue an expression, such
      as `for` or `in`. */
  datatype Token = LBracket | RBracket | Comma | Primary(text: string) | Word(text: string)

  /** Jinja2's list-display loop after the opening bracket: stop at `]`;
      otherwise, after the first item, demand a comma (a comma directly
      before `]` is allowed); then parse one item. `acc` holds the items
      parsed so far. */
  function Items(toks: seq<Token>, acc: seq<string>): Option<seq<string>>
    decreases |toks|
  {
    if |toks| == 0 then None
    else if toks[0] == RBracket then (if |toks| == 1 then Some(acc) else None)
    else if |acc| > 0 && toks[0] != Comma then None
    else
      var rest := if |acc| > 0 then toks[1..] else toks;
      if |rest| > 0 && rest[0] == RBracket then (if |rest| == 1 then Some(acc) else None)
      else if |rest| > 0 && rest[0].Primary? then Items(rest[1..], acc + [rest[0].text])
      else None
  }

  /** A whole list display, or `None` on a syntax error. */
  function ParseList(toks: seq<Token>): Option<seq<string>>
  {
    if |toks| > 0 && toks[0] == LBracket then Items(toks[1..], []) else None
  }

  /** `, x1, x2, ...`. */
  function Separated(xs: seq<string>): seq<Token>
  {
    if |xs| == 0 then [] else [Comma, Primary(xs[0])] + Separated(xs[1..])
  }

  /** The list display `[x0, x1, ...]` of some operands. */
  function Display(xs: seq<string>): seq<Token>
  {
    if |xs| == 0 then [LBracket, RBracket]
    else [LBracket, Primary(xs[0])] + Separated(xs[1..]) + [RBracket]
  }

  /** One `, x` step of the loop after the first item. */
  lemma ItemStep(x: string, tail: seq<Token>, acc: seq<string>)
    requires |acc| > 0
    ensures Items([Comma, Primary(x)] + tail, acc) == Items(tail, acc + [x])
  {
    var toks := [Comma, Primary(x)] + tail;
    assert toks[1..][1..] == tail;
  }

  lemma {:induction false} SeparatedParses(xs: seq<string>, acc: seq<string>)
    requires |acc| > 0
    ensures Items(Separated(xs) + [RBracket], acc) == Some(acc + xs)
  {
    if |xs| == 0 {
      assert Separated(xs) + [RBracket] == [RBracket];
      assert acc + xs == acc;
    } else {
      var tail := Separated(xs[1..]) + [RBracket];
      assert Separated(xs) + [RBracket] == [Comma, Primary(xs[0])] + tail;
      ItemStep(xs[0], tail, acc);
      SeparatedParses(xs[1..], acc + [xs[0]]);
      assert acc + [xs[0]] + xs[1..] == acc + xs;
    }
  }

  /** The parser reads back every well-formed list display, so it is the
      comprehension, not the parser, that is rejected below. */
  lemma DisplayRoundTrip(xs: seq<string>)
    ensures ParseList(Display(xs)) == Some(xs)
  {
    if |xs| > 0 {
      var tail := Separated(xs[1..]) + [RBracket];
      assert Display(xs)[1..] == [Primary(xs[0])] + tail;
      FirstItem(xs[0], tail);
      SeparatedParses(xs[1..], [xs[0]]);
      assert [xs[0]] + xs[1..] == xs;
    }
  }

  /** The first item of a display needs no comma before it. */
  lemma FirstItem(x: string, tail: seq<Token>)
    ensures Items([Primary(x)] + tail, []) == Items(tail, [x])
  {
    var toks := [Primary(x)] + tail;
    assert toks[1..] == tail;
    assert [] + [x] == [x];
  }

  /** A comma right before the closing bracket is accepted. */
  lemma TrailingComma(x: string)
    ensures ParseList([LBracket, Primary(x), Comma, RBracket]) == Some([x])
  {
    var toks: seq<Token> := [LBracket, Primary(x), Comma, RBracket];
    var after := toks[1..][1..];
    assert after == [Comma, RBracket];
    assert after[1..] == [RBracket];
    assert Items(after, [x]) == Some([x]);
    assert [] + [x] == [x];
    assert Items(toks[1..], []) == Items(after, [x]);
  }

  /** Any display whose first item is followed by a name other than a comma
      is a syntax error: no comprehension `[e for v in s]` parses. */
  lemma ComprehensionRejected(e: string, w: string, rest: seq<Token>)
    ensures ParseList([LBracket, Primary(e), Word(w)] + rest) == None
  {
    var toks := [LBracket, Primary(e), Word(w)] + rest;
    var after := toks[1..][1..];
    assert after == [Word(w)] + rest;
    assert Items(after, [e]) == None;
    assert [] + [e] == [e];
    assert Items(toks[1..], []) == Items(after, [e]);
  }

  /** The list written in the port-kind expression, `[n.type for n in r.nodes]`. */
  const NodeTypesExpr: seq<Token> :=
    [LBracket, Primary("n.type"), Word("for"), Primary("n"), Word("in"), Primary("r.nodes"), RBracket]

  datatype SimplifiedModule = SimplifiedModule(
    ports: seq<ExternalPort>,
    instances: seq<Instance>,
    assigns: seq<BundleAlias>)

  /** The evidently intended output: the mesh rule, one port per router by
      `RouterPort`, bare instances, east/west bundle assignments; a router
      without nodes fails the render. */
  function Emit(routers: seq<Router>): (res: Result<SimplifiedModule, GenError>)
    ensures res.Err? <==> exists i :: 0 <= i < |routers| && |routers[i].nodes| == 0
    ensures res.Err? ==> res.error == RouterWithoutNodes(routers[FirstWithoutNodes(routers).value].id)
    ensures res.Ok? ==>
              && |res.value.ports| == |routers|
              && (forall i :: 0 <= i < |routers| ==>
                    res.value.ports[i].name == routers[i].nodes[0].name &&
                    (res.value.ports[i].bus == Master <==> exists n :: n in routers[i].nodes && n.kind == "master"))
    ensures res.Ok? ==>
              && |res.value.instances| == |routers|
              && (forall i :: 0 <= i < |routers| ==> res.value.instances[i] == BareInstance(routers[i]))
    ensures res.Ok? ==>
              && Resolvable(Build(routers), Links(Build(routers), "mesh"))
              && res.value.assigns == BundleAssignments(Build(routers), Links(Build(routers), "mesh"))
  {
    match FirstWithoutNodes(routers)
    case Some(i) => Err(RouterWithoutNodes(routers[i].id))
    case None =>
      var lk := Build(routers);
      var links := Links(lk, "mesh");
      LinksResolvable(lk, "mesh");
      Ok(SimplifiedModule(
        seq(|routers|, i requires 0 <= i < |routers| && |routers[i].nodes| > 0 => RouterPort(routers[i])),
        seq(|routers|, i requires 0 <= i < |routers| => BareInstance(routers[i])),
        BundleAssignments(lk, links)))
  }

  /** What the script does: the template is parsed before rendering, and
      only a template whose port-kind list parses would be rendered. AS
      WRITTEN, it fails with a template syntax error for every
      configuration, even one whose intended render succeeds. */
  function EmitAsWritten(routers: seq<Router>): (res: Result<SimplifiedModule, GenError>)
    ensures res == Err(TemplateSyntax)
    ensures Emit(routers).Ok? ==> res != Emit(routers)
  {
    ComprehensionRejected("n.type", "for", NodeTypesExpr[3..]);
    assert NodeTypesExpr == [LBracket, Primary("n.type"), Word("for")] + NodeTypesExpr[3..];
    if ParseList(NodeTypesExpr).None? then Err(TemplateSyntax) else Emit(routers)
  }

  /** The intended output matches `generate_noc.py` with the mesh topology
      in instances and assignments, and in ports up to the port kind. */
  lemma AgreesWithGenerateNocMesh(routers: seq<Router>)
    ensures Emit(routers).Ok? <==> GenerateNoc.Emit(routers, "mesh").Ok?
    ensures Emit(routers).Ok? ==>
              && Emit(routers).value.instances == GenerateNoc.Emit(routers, "mesh").value.instances
              && Emit(routers).value.assigns == GenerateNoc.Emit(routers, "mesh").value.assigns
              && |Emit(routers).value.ports| == |GenerateNoc.Emit(routers, "mesh").value.ports|
              && (forall i :: 0 <= i < |routers| ==>
                    Emit(routers).value.ports[i].name == GenerateNoc.Emit(routers, "mesh").value.ports[i].name)
  {
  }
}
