/** Declarative filter trees, as the access rules hand them to the query layer,
    and an interpreter that says which records a tree admits.

    A tree is built from field comparisons (`equals`, `not`, `in`), a test on a
    to-one relation (`author: { id: { equals: x } }`), a `some` test over a
    to-many relation, and `AND` / `OR` nodes. The interpreter is this model's
    stand-in for the query layer: a comparison on a field the record does not
    have, or a test on a relation that is not set, admits nothing. */
module Filters {

  /** Scalar fields the rules compare. */
  datatype Field = Id | Name | Status | ApprovalStatus | Department | IsActive | IsGlobal

  /** Relations the rules traverse. */
  datatype Relation = Author | UploadedBy | Departments

  datatype Value = Text(s: string) | Bool(b: bool)

  /** A comparison applied to one field's value. */
  datatype Cond =
    | Equals(v: Value)
    | Not(c: Cond)
    | In(vs: seq<Value>)

  datatype Expr =
    | Where(field: Field, cond: Cond)        // { field: cond }
    | One(rel: Relation, inner: Expr)        // { rel: inner } on a to-one relation
    | SomeOf(rel: Relation, inner: Expr)     // { rel: { some: inner } }
    | And(es: seq<Expr>)
    | Or(es: seq<Expr>)

  /** A stored record: its scalar fields, its to-one relations that are set,
      and its to-many relations. */
  datatype Item = Item(
    scalars: map<Field, Value>,
    toOne: map<Relation, Item>,
    toMany: map<Relation, seq<Item>>)

  function Holds(c: Cond, v: Value): bool
  {
    match c
    case Equals(w) => v == w
    case Not(c') => !Holds(c', v)
    case In(vs) => v in vs
  }

  function Eval(e: Expr, item: Item): bool
  {
    match e
    case Where(f, c) => f in item.scalars && Holds(c, item.scalars[f])
    case One(r, inner) => r in item.toOne && Eval(inner, item.toOne[r])
    case SomeOf(r, inner) =>
      r in item.toMany && exists i :: 0 <= i < |item.toMany[r]| && Eval(inner, item.toMany[r][i])
    case And(es) => forall i :: 0 <= i < |es| ==> Eval(es[i], item)
    case Or(es) => exists i :: 0 <= i < |es| && Eval(es[i], item)
  }

  /** A two-way `AND` admits exactly what both parts admit. */
  lemma EvalAnd2(a: Expr, b: Expr, item: Item)
    ensures Eval(And([a, b]), item) <==> Eval(a, item) && Eval(b, item)
  {
    var es := [a, b];
    assert es[0] == a && es[1] == b;
  }

  /** A two-way `OR` admits exactly what either part admits. */
  lemma EvalOr2(a: Expr, b: Expr, item: Item)
    ensures Eval(Or([a, b]), item) <==> Eval(a, item) || Eval(b, item)
  {
    var es := [a, b];
    assert es[0] == a && es[1] == b;
  }
}
