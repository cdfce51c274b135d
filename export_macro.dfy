/** The `@GSExportable` extension macro: over the members of a class or
    struct declaration it collects one bind line per exported member, in
    five groups, and emits an `export(in:)` that makes one container and
    runs those binds. Syntax is modelled as small datatypes holding only
    what the macro inspects. */
module ExportMacro {

  /** A declaration modifier; only `static` and `private` are inspected. */
  datatype Keyword = StaticKeyword | PrivateKeyword | OtherKeyword(text: string)

  /** A pattern of a variable binding. */
  datatype Pattern = IdentifierPattern(identifier: string) | OtherPattern

  datatype MemberDecl =
    | VariableDecl(modifiers: seq<Keyword>, bindings: seq<Pattern>)
    | InitializerDecl(modifiers: seq<Keyword>, parameters: seq<string>)
    | FunctionDecl(modifiers: seq<Keyword>, name: string)
    | OtherMember

  datatype DeclKind = ClassKind | StructKind | OtherKind

  /** The declaration the macro is attached to. */
  datatype TypeDecl = TypeDecl(kind: DeclKind, name: string, members: seq<MemberDecl>)

  datatype Segment = StringSegment(content: string) | OtherSegment
  datatype Expr = StringLiteral(segments: seq<Segment>) | OtherExpr

  /** The `@GSExportable(...)` attribute: its argument expressions. */
  datatype Attribute = Attribute(arguments: seq<Expr>)

  /** The generated extension's source text, or the thrown `MacroError`. */
  datatype Expansion = Extension(text: string) | Thrown(message: string)

  const NotTypeMessage: string := "This macro can only be applied to classes and structs"

  // ---------------------------------------------------------------------
  // Bind lines

  function ConstructorLine(t: string): string
  {
    "container.bind(.constructor(" + t + ".init))"
  }

  function StaticMethodLine(t: string, f: string): string
  {
    "container.bind(.staticMethod(" + t + "." + f + ", named: \"" + f + "\"))"
  }

  function MethodLine(t: string, f: string): string
  {
    "container.bind(.method(" + t + "." + f + ", named: \"" + f + "\"))"
  }

  function StaticPropertyLine(t: string, p: string): string
  {
    "container.bind(.staticProperty(" + t + "." + p + ", named: \"" + p + "\"))"
  }

  /** A key-path property: `\T.p`. */
  function PropertyLine(t: string, p: string): string
  {
    "container.bind(.property(\\" + t + "." + p + ", named: \"" + p + "\"))"
  }

  /** The five lists the macro appends to. */
  datatype BindGroups = BindGroups(
    constructors: seq<string>,
    staticMethods: seq<string>,
    methods: seq<string>,
    staticProperties: seq<string>,
    properties: seq<string>)

  const NoBinds: BindGroups := BindGroups([], [], [], [], [])

  /** Group-wise concatenation. */
  function Then(a: BindGroups, b: BindGroups): BindGroups
  {
    BindGroups(a.constructors + b.constructors, a.staticMethods + b.staticMethods, a.methods + b.methods,
               a.staticProperties + b.staticProperties, a.properties + b.properties)
  }

  /** Constructors, then static methods, methods, static properties and properties. */
  function AllBinds(g: BindGroups): seq<string>
  {
    g.constructors + g.staticMethods + g.methods + g.staticProperties + g.properties
  }

  predicate IsPrivate(m: MemberDecl)
  {
    match m
    case VariableDecl(modifiers, _) => PrivateKeyword in modifiers
    case InitializerDecl(modifiers, _) => PrivateKeyword in modifiers
    case FunctionDecl(modifiers, _) => PrivateKeyword in modifiers
    case OtherMember => false
  }

  /** The property lines of a variable declaration's bindings: one per
      identifier pattern, in order. */
  function PatternBinds(t: string, isStatic: bool, ps: seq<Pattern>): seq<string>
  {
    if ps == [] then []
    else
      PatternBinds(t, isStatic, ps[..|ps| - 1])
      + match ps[|ps| - 1]
        case IdentifierPattern(p) => [if isStatic then StaticPropertyLine(t, p) else PropertyLine(t, p)]
        case OtherPattern => []
  }

  /** The lines one member adds. */
  function MemberBinds(t: string, m: MemberDecl): BindGroups
  {
    if IsPrivate(m) then NoBinds
    else match m
      case VariableDecl(modifiers, bindings) =>
        if StaticKeyword in modifiers then BindGroups([], [], [], PatternBinds(t, true, bindings), [])
        else BindGroups([], [], [], [], PatternBinds(t, false, bindings))
      case InitializerDecl(_, _) => BindGroups([ConstructorLine(t)], [], [], [], [])
      case FunctionDecl(modifiers, f) =>
        if StaticKeyword in modifiers then BindGroups([], [StaticMethodLine(t, f)], [], [], [])
        else BindGroups([], [], [MethodLine(t, f)], [], [])
      case OtherMember => NoBinds
  }

  /** The five lists after the loop over `ms`. */
  function Classify(t: string, ms: seq<MemberDecl>): BindGroups
  {
    if ms == [] then NoBinds else Then(Classify(t, ms[..|ms| - 1]), MemberBinds(t, ms[|ms| - 1]))
  }

  // ---------------------------------------------------------------------
  // Name choice and the emitted text

  /** The container name: the text of the first segment of the attribute's
      first argument when that is a string literal, else the type's name. */
  function ExportedName(node: Attribute, typeName: string): (name: string)
    ensures (|node.arguments| > 0 && node.arguments[0].StringLiteral?
             && |node.arguments[0].segments| > 0 && node.arguments[0].segments[0].StringSegment?)
            ==> name == node.arguments[0].segments[0].content
    ensures !(|node.arguments| > 0 && node.arguments[0].StringLiteral?
              && |node.arguments[0].segments| > 0 && node.arguments[0].segments[0].StringSegment?)
            ==> name == typeName
  {
    if |node.arguments| > 0 && node.arguments[0].StringLiteral? then
      var segments := node.arguments[0].segments;
      if |segments| > 0 && segments[0].StringSegment? then segments[0].content else typeName
    else typeName
  }

  /** `lines.joined(separator: sep)`. */
  function Join(lines: seq<string>, sep: string): string
  {
    if lines == [] then "" else if |lines| == 1 then lines[0] else lines[0] + sep + Join(lines[1..], sep)
  }

  /** The extension source text the macro builds. */
  function ExtensionText(t: string, name: string, binds: seq<string>): string
  {
    "extension " + t + ": Gravity.GSExportable {\n"
    + "    static func export(in encoder: Gravity.GravityExportEncoder) throws {\n"
    + "        let container = try encoder.makeContainer(for: " + t + ".self, named: \"" + name + "\")\n"
    + "        " + Join(binds, "\n    ") + "\n"
    + "    }\n"
    + "}"
  }

  /** What `expansion(of:attachedTo:...)` produces. */
  function ExpansionSpec(node: Attribute, decl: TypeDecl): (r: Expansion)
    ensures decl.kind == OtherKind <==> r == Thrown(NotTypeMessage)
    ensures r.Extension? ==>
              r.text == ExtensionText(decl.name, ExportedName(node, decl.name), AllBinds(Classify(decl.name, decl.members)))
  {
    if decl.kind == OtherKind then Thrown(NotTypeMessage)
    else Extension(ExtensionText(decl.name, ExportedName(node, decl.name), AllBinds(Classify(decl.name, decl.members))))
  }

  /** The inner loop over a variable declaration's bindings: each
      identifier pattern appends one line to the static or the instance
      property list. */
  method BindVariable(typeName: string, isStatic: bool, bindings: seq<Pattern>,
                      staticPropertyBinds: seq<string>, propertyBinds: seq<string>)
      returns (staticProperties: seq<string>, properties: seq<string>)
    ensures staticProperties == staticPropertyBinds + (if isStatic then PatternBinds(typeName, true, bindings) else [])
    ensures properties == propertyBinds + (if isStatic then [] else PatternBinds(typeName, false, bindings))
  {
    staticProperties, properties := staticPropertyBinds, propertyBinds;
    for j := 0 to |bindings|
      invariant staticProperties == staticPropertyBinds + (if isStatic then PatternBinds(typeName, true, bindings[..j]) else [])
      invariant properties == propertyBinds + (if isStatic then [] else PatternBinds(typeName, false, bindings[..j]))
    {
      assert bindings[..j + 1][..j] == bindings[..j];
      match bindings[j] {
        case IdentifierPattern(propertyName) =>
          if isStatic {
            staticProperties := staticProperties + [StaticPropertyLine(typeName, propertyName)];
          } else {
            properties := properties + [PropertyLine(typeName, propertyName)];
          }
        case OtherPattern =>
      }
    }
    assert bindings[..|bindings|] == bindings;
  }

  /** One pass of the loop over the members: appends the member's lines
      to the five lists. */
  method BindMember(typeName: string, member: MemberDecl,
                    constructorBinds: seq<string>, staticMethodBinds: seq<string>, methodBinds: seq<string>,
                    staticPropertyBinds: seq<string>, propertyBinds: seq<string>)
      returns (constructors: seq<string>, staticMethods: seq<string>, methods: seq<string>,
               staticProperties: seq<string>, properties: seq<string>)
    ensures BindGroups(constructors, staticMethods, methods, staticProperties, properties)
            == Then(BindGroups(constructorBinds, staticMethodBinds, methodBinds, staticPropertyBinds, propertyBinds),
                    MemberBinds(typeName, member))
  {
    constructors, staticMethods, methods, staticProperties, properties :=
      constructorBinds, staticMethodBinds, methodBinds, staticPropertyBinds, propertyBinds;
    match member {
      case VariableDecl(modifiers, bindings) =>
        var isStatic := StaticKeyword in modifiers;
        var isPrivate := PrivateKeyword in modifiers;
        if !isPrivate {
          staticProperties, properties := BindVariable(typeName, isStatic, bindings, staticProperties, properties);
        }
      case InitializerDecl(modifiers, _) =>
        if PrivateKeyword !in modifiers {
          constructors := constructors + [ConstructorLine(typeName)];
        }
      case FunctionDecl(modifiers, functionName) =>
        var isStatic := StaticKeyword in modifiers;
        if PrivateKeyword !in modifiers {
          if isStatic {
            staticMethods := staticMethods + [StaticMethodLine(typeName, functionName)];
          } else {
            methods := methods + [MethodLine(typeName, functionName)];
          }
        }
      case OtherMember =>
    }
    ThenNoBinds(BindGroups(constructorBinds, staticMethodBinds, methodBinds, staticPropertyBinds, propertyBinds));
  }

  /** `GSExportableMacro.expansion`. */
  method Expand(node: Attribute, decl: TypeDecl) returns (r: Expansion)
    ensures r == ExpansionSpec(node, decl)
  {
    if decl.kind == OtherKind {
      return Thrown(NotTypeMessage);
    }
    var typeName := decl.name;
    var members := decl.members;
    var customName := ExportedName(node, typeName);

    var propertyBinds: seq<string> := [];
    var methodBinds: seq<string> := [];
    var constructorBinds: seq<string> := [];
    var staticPropertyBinds: seq<string> := [];
    var staticMethodBinds: seq<string> := [];

    for i := 0 to |members|
      invariant BindGroups(constructorBinds, staticMethodBinds, methodBinds, staticPropertyBinds, propertyBinds)
                == Classify(typeName, members[..i])
    {
      assert members[..i + 1][..i] == members[..i];
      constructorBinds, staticMethodBinds, methodBinds, staticPropertyBinds, propertyBinds :=
        BindMember(typeName, members[i],
                   constructorBinds, staticMethodBinds, methodBinds, staticPropertyBinds, propertyBinds);
    }
    assert members[..|members|] == members;
    var allBinds := constructorBinds + staticMethodBinds + methodBinds + staticPropertyBinds + propertyBinds;
    r := Extension(ExtensionText(typeName, customName, allBinds));
  }

  // ---------------------------------------------------------------------
  // Properties of the classification

  /** Classifying a concatenation classifies each part and concatenates
      group by group: within a group, lines keep source order. */
  lemma {:induction false} ClassifyAppend(t: string, a: seq<MemberDecl>, b: seq<MemberDecl>)
    ensures Classify(t, a + b) == Then(Classify(t, a), Classify(t, b))
  {
    if b == [] {
      assert a + b == a;
      ThenNoBinds(Classify(t, a));
    } else {
      var init := b[..|b| - 1];
      var mb := MemberBinds(t, b[|b| - 1]);
      assert (a + b)[..|a + b| - 1] == a + init;
      assert (a + b)[|a + b| - 1] == b[|b| - 1];
      assert Classify(t, a + b) == Then(Classify(t, a + init), mb);
      assert Classify(t, b) == Then(Classify(t, init), mb);
      ClassifyAppend(t, a, init);
      ThenAssoc(Classify(t, a), Classify(t, init), mb);
    }
  }

  /** `NoBinds` is a right unit of `Then`. */
  lemma ThenNoBinds(g: BindGroups)
    ensures Then(g, NoBinds) == g
  {
    assert g.constructors + [] == g.constructors;
    assert g.staticMethods + [] == g.staticMethods;
    assert g.methods + [] == g.methods;
    assert g.staticProperties + [] == g.staticProperties;
    assert g.properties + [] == g.properties;
  }

  /** `Then` is associative. */
  lemma ThenAssoc(x: BindGroups, y: BindGroups, z: BindGroups)
    ensures Then(Then(x, y), z) == Then(x, Then(y, z))
  {
    assert (x.constructors + y.constructors) + z.constructors == x.constructors + (y.constructors + z.constructors);
    assert (x.staticMethods + y.staticMethods) + z.staticMethods == x.staticMethods + (y.staticMethods + z.staticMethods);
    assert (x.methods + y.methods) + z.methods == x.methods + (y.methods + z.methods);
    assert (x.staticProperties + y.staticProperties) + z.staticProperties
        == x.staticProperties + (y.staticProperties + z.staticProperties);
    assert (x.properties + y.properties) + z.properties == x.properties + (y.properties + z.properties);
  }

  /** The members that are not private, in order. */
  function Exposed(ms: seq<MemberDecl>): (r: seq<MemberDecl>)
    ensures forall k :: 0 <= k < |r| ==> !IsPrivate(r[k])
  {
    if ms == [] then []
    else Exposed(ms[..|ms| - 1]) + (if IsPrivate(ms[|ms| - 1]) then [] else [ms[|ms| - 1]])
  }

  /** Private members produce no bind line: dropping them changes nothing. */
  lemma {:induction false} PrivateMembersIgnored(t: string, ms: seq<MemberDecl>)
    ensures Classify(t, Exposed(ms)) == Classify(t, ms)
  {
    if ms != [] {
      var init := ms[..|ms| - 1];
      var last := ms[|ms| - 1];
      PrivateMembersIgnored(t, init);
      assert Classify(t, ms) == Then(Classify(t, init), MemberBinds(t, last));
      if IsPrivate(last) {
        assert Exposed(ms) == Exposed(init);
        ThenNoBinds(Classify(t, init));
      } else {
        var e := Exposed(init) + [last];
        assert Exposed(ms) == e;
        assert e[..|e| - 1] == Exposed(init);
      }
    }
  }

  /** What the member list exports, by kind and name, independent of how
      the lines are rendered. */
  datatype Plan = Plan(
    constructors: nat,
    staticMethods: seq<string>,
    methods: seq<string>,
    staticProperties: seq<string>,
    properties: seq<string>)

  /** The identifier names of a list of patterns, in order. */
  function Identifiers(ps: seq<Pattern>): seq<string>
  {
    if ps == [] then []
    else if ps[0].IdentifierPattern? then [ps[0].identifier] + Identifiers(ps[1..])
    else Identifiers(ps[1..])
  }

  const NoPlan: Plan := Plan(0, [], [], [], [])

  /** What one member exports. */
  function MemberPlan(m: MemberDecl): Plan
  {
    if IsPrivate(m) then NoPlan
    else match m
      case VariableDecl(modifiers, bindings) =>
        if StaticKeyword in modifiers then NoPlan.(staticProperties := Identifiers(bindings))
        else NoPlan.(properties := Identifiers(bindings))
      case InitializerDecl(_, _) => NoPlan.(constructors := 1)
      case FunctionDecl(modifiers, f) =>
        if StaticKeyword in modifiers then NoPlan.(staticMethods := [f])
        else NoPlan.(methods := [f])
      case OtherMember => NoPlan
  }

  function Merge(a: Plan, b: Plan): Plan
  {
    Plan(a.constructors + b.constructors, a.staticMethods + b.staticMethods, a.methods + b.methods,
         a.staticProperties + b.staticProperties, a.properties + b.properties)
  }

  /** The plan of `ms`, member by member from the front. */
  function PlanOf(ms: seq<MemberDecl>): Plan
  {
    if ms == [] then NoPlan else Merge(MemberPlan(ms[0]), PlanOf(ms[1..]))
  }

  lemma MergeNoPlan(p: Plan)
    ensures Merge(NoPlan, p) == p && Merge(p, NoPlan) == p
  {
    assert p.staticMethods + [] == p.staticMethods;
    assert p.methods + [] == p.methods;
    assert p.staticProperties + [] == p.staticProperties;
    assert p.properties + [] == p.properties;
  }

  lemma MergeAssoc(x: Plan, y: Plan, z: Plan)
    ensures Merge(Merge(x, y), z) == Merge(x, Merge(y, z))
  {
    assert (x.staticMethods + y.staticMethods) + z.staticMethods == x.staticMethods + (y.staticMethods + z.staticMethods);
    assert (x.methods + y.methods) + z.methods == x.methods + (y.methods + z.methods);
    assert (x.staticProperties + y.staticProperties) + z.staticProperties
        == x.staticProperties + (y.staticProperties + z.staticProperties);
    assert (x.properties + y.properties) + z.properties == x.properties + (y.properties + z.properties);
  }

  function Repeat(line: string, n: nat): (r: seq<string>)
    ensures |r| == n && forall k :: 0 <= k < n ==> r[k] == line
  {
    if n == 0 then [] else [line] + Repeat(line, n - 1)
  }

  function Lines(names: seq<string>, line: string -> string): (r: seq<string>)
    ensures |r| == |names| && forall k :: 0 <= k < |names| ==> r[k] == line(names[k])
  {
    seq(|names|, k requires 0 <= k < |names| => line(names[k]))
  }

  /** The lines a plan renders to for type `t`. */
  function Render(t: string, p: Plan): BindGroups
  {
    BindGroups(Repeat(ConstructorLine(t), p.constructors),
               Lines(p.staticMethods, f => StaticMethodLine(t, f)),
               Lines(p.methods, f => MethodLine(t, f)),
               Lines(p.staticProperties, q => StaticPropertyLine(t, q)),
               Lines(p.properties, q => PropertyLine(t, q)))
  }

  lemma {:induction false} PatternBindsRenderIdentifiers(t: string, isStatic: bool, ps: seq<Pattern>)
    ensures PatternBinds(t, isStatic, ps)
            == Lines(Identifiers(ps), q => if isStatic then StaticPropertyLine(t, q) else PropertyLine(t, q))
  {
    if ps != [] {
      var init := ps[..|ps| - 1];
      PatternBindsRenderIdentifiers(t, isStatic, init);
      IdentifiersAppend(init, [ps[|ps| - 1]]);
      assert init + [ps[|ps| - 1]] == ps;
    }
  }

  lemma {:induction false} IdentifiersAppend(a: seq<Pattern>, b: seq<Pattern>)
    ensures Identifiers(a + b) == Identifiers(a) + Identifiers(b)
  {
    if a != [] {
      assert (a + b)[0] == a[0];
      assert (a + b)[1..] == a[1..] + b;
      IdentifiersAppend(a[1..], b);
    } else {
      assert a + b == b;
    }
  }

  /** One member's lines are its plan rendered. */
  lemma MemberBindsRenderPlan(t: string, m: MemberDecl)
    ensures MemberBinds(t, m) == Render(t, MemberPlan(m))
  {
    if m.VariableDecl? && !IsPrivate(m) {
      PatternBindsRenderIdentifiers(t, StaticKeyword in m.modifiers, m.bindings);
    }
  }

  lemma {:induction false} PlanOfAppend(a: seq<MemberDecl>, b: seq<MemberDecl>)
    ensures PlanOf(a + b) == Merge(PlanOf(a), PlanOf(b))
  {
    if a != [] {
      assert (a + b)[0] == a[0];
      assert (a + b)[1..] == a[1..] + b;
      PlanOfAppend(a[1..], b);
      MergeAssoc(MemberPlan(a[0]), PlanOf(a[1..]), PlanOf(b));
    } else {
      assert a + b == b;
      MergeNoPlan(PlanOf(b));
    }
  }

  lemma RenderMerge(t: string, a: Plan, b: Plan)
    ensures Render(t, Merge(a, b)) == Then(Render(t, a), Render(t, b))
  {
    RepeatAdd(ConstructorLine(t), a.constructors, b.constructors);
  }

  lemma RepeatAdd(line: string, m: nat, n: nat)
    ensures Repeat(line, m + n) == Repeat(line, m) + Repeat(line, n)
  {
  }

  /** The macro's lines are exactly the plan rendered: one constructor line
      per exposed initializer whatever its parameters, a static-method or
      method line named after each exposed function, and a static-property
      or key-path property line per identifier binding of each exposed
      variable declaration. */
  lemma {:induction false} ClassifyRendersPlan(t: string, ms: seq<MemberDecl>)
    ensures Classify(t, ms) == Render(t, PlanOf(ms))
  {
    if ms != [] {
      var init := ms[..|ms| - 1];
      var last := ms[|ms| - 1];
      ClassifyRendersPlan(t, init);
      assert init + [last] == ms;
      PlanOfAppend(init, [last]);
      assert [last][1..] == [];
      MergeNoPlan(MemberPlan(last));
      assert PlanOf([last]) == MemberPlan(last);
      assert PlanOf(ms) == Merge(PlanOf(init), MemberPlan(last));
      MemberBindsRenderPlan(t, last);
      RenderMerge(t, PlanOf(init), MemberPlan(last));
      calc {
        Classify(t, ms);
        Then(Classify(t, init), MemberBinds(t, last));
        Then(Render(t, PlanOf(init)), Render(t, MemberPlan(last)));
        Render(t, Merge(PlanOf(init), MemberPlan(last)));
        Render(t, PlanOf(ms));
      }
    }
  }

  /** One constructor line per exposed initializer. */
  function ExposedInitializers(ms: seq<MemberDecl>): nat
  {
    if ms == [] then 0
    else ExposedInitializers(ms[1..]) + (if ms[0].InitializerDecl? && !IsPrivate(ms[0]) then 1 else 0)
  }

  lemma {:induction false} ConstructorLinesCount(t: string, ms: seq<MemberDecl>)
    ensures |Classify(t, ms).constructors| == ExposedInitializers(ms)
    ensures forall k :: 0 <= k < ExposedInitializers(ms) ==> Classify(t, ms).constructors[k] == ConstructorLine(t)
  {
    ClassifyRendersPlan(t, ms);
    PlanConstructors(ms);
  }

  lemma {:induction false} PlanConstructors(ms: seq<MemberDecl>)
    ensures PlanOf(ms).constructors == ExposedInitializers(ms)
  {
    if ms != [] {
      PlanConstructors(ms[1..]);
    }
  }
}
