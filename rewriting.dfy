/**
 * What the pass does to one top-level item, and to a whole module body, as pure functions.
 * The imperative pass in module Transform is proved to compute exactly these.
 */
module Rewriting {
  import opened Swc
  import opened Recognizers

  /** Why the pass stops on an item whose shape it recognised (a panic in the source). */
  datatype Failure =
    | MissingRequireArgument                  // `require()`: `args[0]` on an empty list
    | NonStringRequireArgument                // spread, or not a string literal
    | UnsupportedBinding(pat: Pat)            // a binding pattern the pass has no case for
    | UnsupportedObjectProp(prop: ObjectPatProp)  // `...rest`, `a = d`, `k: <non-identifier>`, ...
    | NoDeclarators                           // `decls[0]` on a declaration without declarators

  datatype Result<+T> = Ok(value: T) | Err(failure: Failure)

  /** The fate of one item: left as it is, overwritten by a module declaration, or a failure. */
  datatype Step = Keep | Replace(decl: ModuleDecl) | Fail(failure: Failure)

  /** The module source named by `require(args)`: the first argument, a plain string literal. */
  function RequireSource(args: seq<ExprOrSpread>): (r: Result<Str>)
    ensures r.Ok? <==> |args| > 0 && !args[0].spread && args[0].expr.LitExpr? && args[0].expr.lit.StrLit?
    ensures r.Ok? ==> args[0].expr == LitExpr(StrLit(r.value))
    ensures r.Err? ==> r.failure == if |args| == 0 then MissingRequireArgument else NonStringRequireArgument
  {
    if |args| == 0 then Err(MissingRequireArgument)
    else if args[0].spread then Err(NonStringRequireArgument)
    else match args[0].expr
      case LitExpr(StrLit(s)) => Ok(s)
      case _ => Err(NonStringRequireArgument)
  }

  /** The export that replaces `exports.P = right`, chosen by the shape of `right`. */
  function ExportMember(prop: string, right: Expr): ModuleDecl
  {
    match right
    case FnExpr(_, f) => ExportDecl(FnDecl(prop, f))
    case ClassExpr(_, c) => ExportDecl(ClassDecl(prop, c))
    case IdentExpr(i) => NamedExport([ExportNamedSpec(NameIdent(prop), Some(NameIdent(i)))], None)
    case _ => ExportDecl(VarDecl(Const, [VarDeclarator(IdentPat(prop), Some(right))]))
  }

  /** The named-import specifier for one property of a destructuring `require`. */
  function ImportSpecifierFor(prop: ObjectPatProp): (r: Result<ImportSpecifier>)
    ensures r.Ok? ==> r.value.ImportNamed?
    ensures r.Err? ==> r.failure == UnsupportedObjectProp(prop)
  {
    match prop
    case AssignProp(id, None) => Ok(ImportNamed(id, None))
    case KeyValueProp(KeyIdent(k), IdentPat(v)) => Ok(ImportNamed(v, Some(NameIdent(k))))
    case KeyValueProp(KeyStr(k), IdentPat(v)) => Ok(ImportNamed(v, Some(NameStr(k))))
    case _ => Err(UnsupportedObjectProp(prop))
  }

  /**
   * The specifiers for an object pattern, pushed one per property in declared order; the
   * first unsupported property stops the construction.
   */
  function NamedImportSpecifiers(props: seq<ObjectPatProp>): (r: Result<seq<ImportSpecifier>>)
    ensures r.Ok? <==> forall k :: 0 <= k < |props| ==> ImportSpecifierFor(props[k]).Ok?
    ensures r.Ok? ==> |r.value| == |props|
    ensures r.Ok? ==> forall k :: 0 <= k < |props| ==> r.value[k] == ImportSpecifierFor(props[k]).value
    ensures r.Err? ==> exists k :: 0 <= k < |props| && ImportSpecifierFor(props[k]) == Err(r.failure) &&
                                   forall j :: 0 <= j < k ==> ImportSpecifierFor(props[j]).Ok?
    decreases |props|
  {
    if |props| == 0 then Ok([])
    else
      var init := props[..|props| - 1];
      match NamedImportSpecifiers(init)
      case Err(f) => Err(f)
      case Ok(specifiers) =>
        match ImportSpecifierFor(props[|props| - 1])
        case Err(f) => Err(f)
        case Ok(s) => Ok(specifiers + [s])
  }

  /** The import that replaces `const pat = require(src)`. */
  function DeclImport(pat: Pat, src: Str): Result<ModuleDecl>
  {
    match pat
    case IdentPat(x) => Ok(Import([ImportDefault(x)], src))
    case ObjectPat(props) =>
      (match NamedImportSpecifiers(props)
       case Ok(specifiers) => Ok(Import(specifiers, src))
       case Err(f) => Err(f))
    case _ => Err(UnsupportedBinding(pat))
  }

  /** Is `e` a call whose callee is the bare identifier `require`? */
  predicate CallsRequire(e: Expr)
  {
    e.CallExpr? && e.callee == ExprCallee(IdentExpr("require"))
  }

  /** `left = right` inside an expression statement: the three rules in priority order. */
  function RewriteAssign(left: Pat, right: Expr): Step
  {
    if IsModuleExports(left) then Replace(ExportDefaultExpr(right))
    else if IsExportsMember(left).Some? then Replace(ExportMember(IsExportsMember(left).value, right))
    else if CallsRequire(right) then
      match RequireSource(right.args)
      case Err(f) => Fail(f)
      case Ok(src) =>
        (match left
         case IdentPat(x) => Replace(Import([ImportDefault(x)], src))
         case _ => Fail(UnsupportedBinding(left)))
    else Keep
  }

  /** A variable declaration: only its first declarator is consulted. */
  function RewriteVarDecl(decls: seq<VarDeclarator>): Step
  {
    if |decls| == 0 then Fail(NoDeclarators)
    else
      var d := decls[0];
      if d.init.Some? && CallsRequire(d.init.value) then
        match RequireSource(d.init.value.args)
        case Err(f) => Fail(f)
        case Ok(src) =>
          (match DeclImport(d.name, src)
           case Ok(decl) => Replace(decl)
           case Err(f) => Fail(f))
      else Keep
  }

  /** The fate of one top-level item. */
  function Rewrite(item: ModuleItem): Step
  {
    match item
    case ModuleDeclItem(_) => Keep
    case StmtItem(stmt) =>
      match stmt
      case ExprStmt(e) =>
        if e.AssignExpr? && e.op == Assign && e.left.PatTarget? then RewriteAssign(e.left.pat, e.right) else Keep
      case DeclStmt(VarDecl(_, decls)) => RewriteVarDecl(decls)
      case _ => Keep
  }

  /** The item that occupies the slot once its step is carried out (a failure leaves it). */
  function Applied(item: ModuleItem): ModuleItem
  {
    match Rewrite(item)
    case Replace(d) => ModuleDeclItem(d)
    case _ => item
  }

  /** How a whole pass ends: every item visited, or stopped at the item with index `at`. */
  datatype Outcome = Done | Aborted(at: nat, failure: Failure)

  datatype PassResult = PassResult(items: seq<ModuleItem>, outcome: Outcome)

  /** One pass over a module body, front to back, stopping at the first failing item. */
  function RunPass(items: seq<ModuleItem>): PassResult
    decreases |items|
  {
    if |items| == 0 then PassResult([], Done)
    else match Rewrite(items[0])
      case Fail(f) => PassResult(items, Aborted(0, f))
      case _ =>
        var rest := RunPass(items[1..]);
        PassResult([Applied(items[0])] + rest.items,
                   match rest.outcome
                   case Done => Done
                   case Aborted(j, f) => Aborted(j + 1, f))
  }

  /** Once a prefix of the properties fails, the whole list fails the same way. */
  lemma {:induction false} StopsAtFailure(props: seq<ObjectPatProp>, n: nat)
    requires n <= |props| && NamedImportSpecifiers(props[..n]).Err?
    ensures NamedImportSpecifiers(props) == NamedImportSpecifiers(props[..n])
    decreases |props| - n
  {
    if n < |props| {
      assert props[..n + 1][..n] == props[..n];
      StopsAtFailure(props, n + 1);
    } else {
      assert props[..n] == props;
    }
  }

  /** The per-slot reading of RunPass that the loop's invariants speak in. */
  lemma {:induction false} RunPassSlots(items: seq<ModuleItem>)
    ensures |RunPass(items).items| == |items|
    ensures RunPass(items).outcome.Done? <==> forall k :: 0 <= k < |items| ==> !Rewrite(items[k]).Fail?
    ensures RunPass(items).outcome.Done? ==>
              forall k :: 0 <= k < |items| ==> RunPass(items).items[k] == Applied(items[k])
    ensures RunPass(items).outcome.Aborted? ==>
              var j := RunPass(items).outcome.at;
              j < |items| && Rewrite(items[j]) == Fail(RunPass(items).outcome.failure) &&
              (forall k :: 0 <= k < j ==> !Rewrite(items[k]).Fail? && RunPass(items).items[k] == Applied(items[k])) &&
              (forall k :: j <= k < |items| ==> RunPass(items).items[k] == items[k])
    decreases |items|
  {
    if |items| > 0 && !Rewrite(items[0]).Fail? {
      RunPassSlots(items[1..]);
    }
  }
}
