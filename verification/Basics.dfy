/** Lists, options and results shared by every other module. */
module Basics {

  datatype List<T> = Nil | Cons(head: T, tail: List<T>)

  datatype Option<T> = None | Some(value: T)

  function Len<T>(xs: List<T>): nat {
    match xs
    case Nil => 0
    case Cons(_, tail) => 1 + Len(tail)
  }

  function App<T>(xs: List<T>, ys: List<T>): List<T> {
    match xs
    case Nil => ys
    case Cons(x, tail) => Cons(x, App(tail, ys))
  }

  function Snoc<T>(xs: List<T>, x: T): List<T> {
    App(xs, Cons(x, Nil))
  }

  lemma {:induction false} AppNil<T>(xs: List<T>)
    ensures App(xs, Nil) == xs
  {
    match xs
    case Nil =>
    case Cons(_, tail) => AppNil(tail);
  }

  lemma {:induction false} AppAssoc<T>(xs: List<T>, ys: List<T>, zs: List<T>)
    ensures App(App(xs, ys), zs) == App(xs, App(ys, zs))
  {
    match xs
    case Nil =>
    case Cons(_, tail) => AppAssoc(tail, ys, zs);
  }

  lemma {:induction false} Regroup<T>(a: seq<T>, b: seq<T>, c: seq<T>)
    ensures (a + b) + c == a + (b + c)
  {
  }
}
