/**
 Checking and evaluating a formula over the documents of a group
 (internal/checkexpr/eval.go).
 */
module FormulaEval {
  import opened Util
  import Chars = Text
  import opened FormulaSyntax
  import opened FormulaValues

  datatype Kind = NumberKind | DateKind | TruthKind | TextKind

  /** A document: its label (`title`), and the text of its fields. */
  datatype Doc = Doc(title: string, fields: map<string, string>)

  /** What a formula sees: the kind of every field of every document type, the documents of
      each type, the names bound to one document, and the types of these names. */
  datatype Scope = Scope(types: map<string, map<string, Kind>>, groups: map<string, seq<Doc>>,
                         single: map<string, Doc>, singleType: map<string, string>)

  function TypeOf(sc: Scope, name: string): Option<string> {
    if name in sc.singleType then Some(sc.singleType[name])
    else if name in sc.types then Some(name)
    else None
  }

  predicate IsKnownField(sc: Scope, name: string, field: string) {
    match TypeOf(sc, name)
    case Some(typ) => typ in sc.types && field in sc.types[typ]
    case None => false
  }

  /** The kind under which a field of a name is read. */
  function KindOf(sc: Scope, name: string, field: string): Kind {
    if IsKnownField(sc, name, field) then sc.types[TypeOf(sc, name).value][field] else TextKind
  }

  function FieldText(d: Doc, field: string): string {
    Chars.TrimSpace(if field in d.fields then d.fields[field] else "")
  }

  /** A text that is not blank, read as its kind says. A yes/no text that is not understood
      stays a text; a number or a date that is not understood is missing. */
  function ReadAs(lib: Lib, kind: Kind, t: string, unreadable: Remark): Value {
    match kind
    case NumberKind => (match lib.number(t) case Some(x) => Amount(x) case None => Says(lib, unreadable))
    case DateKind => (match lib.date(t) case Some(d) => Day(d, "") case None => Says(lib, unreadable))
    case TruthKind => (match lib.truth(t) case Some(b) => Truth(b) case None => Text(t))
    case TextKind => Text(t)
  }

  function FieldOf(lib: Lib, name: string, kind: Kind, d: Doc, field: string): Value {
    var t := FieldText(d, field);
    if t == "" then Says(lib, Lacks(name, field, d.title))
    else ReadAs(lib, kind, t, Unreadable(name, field, d.title, t))
  }

  function GroupOf(sc: Scope, name: string): seq<Doc> {
    if name in sc.groups then sc.groups[name] else []
  }

  function NameValue(sc: Scope, name: string): Value {
    if name in sc.single then Text(sc.single[name].title)
    else
      var docs := GroupOf(sc, name);
      Many(seq(|docs|, k requires 0 <= k < |docs| => Text(docs[k].title)))
  }

  function MemberValue(lib: Lib, sc: Scope, name: string, field: string): Value {
    var kind := KindOf(sc, name, field);
    if name in sc.single then FieldOf(lib, name, kind, sc.single[name], field)
    else if name in sc.singleType then Says(lib, NoDocument(name))
    else
      var docs := GroupOf(sc, name);
      Many(seq(|docs|, k requires 0 <= k < |docs| => FieldOf(lib, name, kind, docs[k], field)))
  }

  function StringValue(lib: Lib, s: string): Value {
    match lib.date(Chars.TrimSpace(s))
    case Some(d) => Day(d, s)
    case None => Text(s)
  }

  function Binary(lib: Lib, op: BinOp, l: Value, r: Value): Value {
    match op
    case OrOp => Logic(false, l, r)
    case AndOp => Logic(true, l, r)
    case Add => Broadcast(l, r, (a, b) => Computed(lib, Add, a, b))
    case Sub => Broadcast(l, r, (a, b) => Computed(lib, Sub, a, b))
    case Mul => Broadcast(l, r, (a, b) => Computed(lib, Mul, a, b))
    case Div => Broadcast(l, r, (a, b) => Computed(lib, Div, a, b))
    case _ => Broadcast(l, r, (a, b) => Compared(lib, op, a, b))
  }

  /** The value of a formula; None when the evaluator is stuck: it would call a function
      that does not exist, or read an argument that is not there. */
  function Eval(lib: Lib, sc: Scope, t: Tree): Option<Value>
    decreases t, 0
  {
    match t
    case Num(x) => Some(Amount(x))
    case Str(s) => Some(StringValue(lib, s))
    case Bool(b) => Some(Truth(b))
    case Ident(name) => Some(NameValue(sc, name))
    case Member(name, field) => Some(MemberValue(lib, sc, name, field))
    case Neg(x) =>
      var v := Eval(lib, sc, x);
      if v.None? then None else Some(Binary(lib, Sub, Amount(0.0), v.value))
    case Not(x) =>
      var v := Eval(lib, sc, x);
      if v.None? then None else Some(Negated(v.value))
    case Bin(op, l, r) =>
      var a, b := Eval(lib, sc, l), Eval(lib, sc, r);
      if a.None? || b.None? then None else Some(Binary(lib, op, a.value, b.value))
    case Call(name, args) =>
      var vs := EvalAll(lib, sc, args);
      if vs.None? || lib.functions(name).None? then None else Applied(lib, lib.functions(name).value, vs.value)
  }

  function EvalAll(lib: Lib, sc: Scope, args: seq<Tree>): (vs: Option<seq<Value>>)
    ensures vs.Some? ==> |vs.value| == |args|
    decreases args, 1
  {
    if args == [] then Some([]) else
    var v := Eval(lib, sc, args[0]);
    var rest := EvalAll(lib, sc, args[1..]);
    if v.None? || rest.None? then None else Some([v.value] + rest.value)
  }

  /** The outcome of a check; None when the evaluator is stuck. */
  function Outcome(lib: Lib, sc: Scope, t: Tree): Option<Verdict> {
    var v := Eval(lib, sc, t);
    if v.None? then None else Some(VerdictOf(v.value))
  }

  // ---------------------------------------------------------------------- checking

  predicate ArityOk(fn: Fn, n: nat) {
    MinArgs(fn) <= n && (MaxArgs(fn).Some? ==> n <= MaxArgs(fn).value)
  }

  /** Names, fields, functions and the number of their arguments are known. */
  predicate Checked(lib: Lib, sc: Scope, t: Tree)
    decreases t, 0
  {
    match t
    case Ident(name) => TypeOf(sc, name).Some?
    case Member(name, field) => IsKnownField(sc, name, field)
    case Call(name, args) =>
      lib.functions(name).Some? && ArityOk(lib.functions(name).value, |args|) && AllChecked(lib, sc, args)
    case Neg(x) => Checked(lib, sc, x)
    case Not(x) => Checked(lib, sc, x)
    case Bin(_, l, r) => Checked(lib, sc, l) && Checked(lib, sc, r)
    case _ => true
  }

  predicate AllChecked(lib: Lib, sc: Scope, args: seq<Tree>)
    decreases args, 1
  {
    args == [] || (Checked(lib, sc, args[0]) && AllChecked(lib, sc, args[1..]))
  }

  /** A checked formula never gets stuck, whatever the documents hold. */
  lemma {:induction false} CheckedNeverStuck(lib: Lib, sc: Scope, t: Tree)
    requires Checked(lib, sc, t)
    ensures Eval(lib, sc, t).Some?
    decreases t, 0
  {
    match t
    case Call(name, args) =>
      AllCheckedNeverStuck(lib, sc, args);
    case Neg(x) => CheckedNeverStuck(lib, sc, x);
    case Not(x) => CheckedNeverStuck(lib, sc, x);
    case Bin(_, l, r) =>
      CheckedNeverStuck(lib, sc, l);
      CheckedNeverStuck(lib, sc, r);
    case _ =>
  }

  lemma {:induction false} AllCheckedNeverStuck(lib: Lib, sc: Scope, args: seq<Tree>)
    requires AllChecked(lib, sc, args)
    ensures EvalAll(lib, sc, args).Some?
    decreases args, 1
  {
    if args != [] {
      CheckedNeverStuck(lib, sc, args[0]);
      AllCheckedNeverStuck(lib, sc, args[1..]);
    }
  }
}
