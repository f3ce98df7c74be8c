/** Results of evaluating Python code, and the two ways the directives walk
    a list while any step may raise.

    Every exception the directives can meet (KeyError, TypeError,
    AttributeError, UnboundLocalError) ends in the same catch-all handler
    of `run`, which never looks at the exception; so one failure value,
    `Raised`, stands for all of them. */
module Outcomes {

  /** A Python evaluation: it produced a value, or it raised. */
  datatype Outcome<+T> = Ok(value: T) | Raised {
    predicate IsFailure() {
      Raised?
    }

    function PropagateFailure<U>(): Outcome<U>
      requires Raised?
    {
      Raised
    }

    function Extract(): T
      requires Ok?
    {
      value
    }
  }

  datatype Option<+T> = None | Some(value: T)

  /** `[f(x) for x in xs]` where any `f(x)` may raise: the first exception
      aborts the whole list. Defined from the back, the way a loop that
      appends extends its list. */
  function MapAll<A, B>(f: A -> Outcome<B>, xs: seq<A>): Outcome<seq<B>>
  {
    if xs == [] then Ok([])
    else
      var init :- MapAll(f, xs[..|xs| - 1]);
      var last :- f(xs[|xs| - 1]);
      Ok(init + [last])
  }

  /** The list is built exactly when no element raises, and then holds one
      result per element, in order. */
  lemma {:induction false} MapAllOk<A, B>(f: A -> Outcome<B>, xs: seq<A>)
    ensures MapAll(f, xs).Ok? <==> forall i :: 0 <= i < |xs| ==> f(xs[i]).Ok?
    ensures MapAll(f, xs).Ok? ==>
              |MapAll(f, xs).value| == |xs| &&
              forall i :: 0 <= i < |xs| ==> MapAll(f, xs).value[i] == f(xs[i]).value
  {
    if xs != [] {
      var init := xs[..|xs| - 1];
      MapAllOk(f, init);
      assert forall i :: 0 <= i < |init| ==> init[i] == xs[i];
      if MapAll(f, xs).Ok? {
        assert forall i :: 0 <= i < |xs| ==> f(xs[i]).Ok? by {
          forall i | 0 <= i < |xs| ensures f(xs[i]).Ok? {
            if i < |init| { assert f(init[i]).Ok?; }
          }
        }
      }
    }
  }

  /** One more element: what the loop body does on each turn. */
  lemma MapAllSnoc<A, B>(f: A -> Outcome<B>, xs: seq<A>, x: A)
    ensures MapAll(f, xs + [x]) ==
              match MapAll(f, xs)
              case Raised => Raised
              case Ok(ys) => (match f(x) case Raised => Raised case Ok(y) => Ok(ys + [y]))
  {
    assert (xs + [x])[..|xs|] == xs;
  }

  /** The loop step: one more element of `xs` mapped. */
  lemma MapAllStep<A, B>(f: A -> Outcome<B>, xs: seq<A>, i: nat, done: seq<B>, y: B)
    requires i < |xs|
    requires MapAll(f, xs[..i]) == Ok(done)
    requires f(xs[i]) == Ok(y)
    ensures MapAll(f, xs[..i + 1]) == Ok(done + [y])
  {
    assert xs[..i + 1] == xs[..i] + [xs[i]];
    MapAllSnoc(f, xs[..i], xs[i]);
  }

  /** The loop exit: an element that raises makes the whole map raise. */
  lemma MapAllRaises<A, B>(f: A -> Outcome<B>, xs: seq<A>, i: nat)
    requires i < |xs| && f(xs[i]).Raised?
    ensures MapAll(f, xs).Raised?
  {
    MapAllOk(f, xs);
  }

  /** A list whose elements each contribute a (possibly empty) run of
      results, all or nothing: the shape of a loop that `+=`s a list per
      element or skips some elements with `continue`. */
  function ConcatAll<A, B>(f: A -> Outcome<seq<B>>, xs: seq<A>): Outcome<seq<B>>
  {
    if xs == [] then Ok([])
    else
      var init :- ConcatAll(f, xs[..|xs| - 1]);
      var last :- f(xs[|xs| - 1]);
      Ok(init + last)
  }

  lemma ConcatAllSnoc<A, B>(f: A -> Outcome<seq<B>>, xs: seq<A>, x: A)
    ensures ConcatAll(f, xs + [x]) ==
              match ConcatAll(f, xs)
              case Raised => Raised
              case Ok(ys) => (match f(x) case Raised => Raised case Ok(y) => Ok(ys + y))
  {
    assert (xs + [x])[..|xs|] == xs;
  }

  /** The loop step: one more element's run appended. */
  lemma ConcatAllStep<A, B>(f: A -> Outcome<seq<B>>, xs: seq<A>, i: nat, done: seq<B>, y: seq<B>)
    requires i < |xs|
    requires ConcatAll(f, xs[..i]) == Ok(done)
    requires f(xs[i]) == Ok(y)
    ensures ConcatAll(f, xs[..i + 1]) == Ok(done + y)
  {
    assert xs[..i + 1] == xs[..i] + [xs[i]];
    ConcatAllSnoc(f, xs[..i], xs[i]);
  }

  /** The loop exit: an element that raises makes the whole list raise. */
  lemma ConcatAllRaises<A, B>(f: A -> Outcome<seq<B>>, xs: seq<A>, i: nat)
    requires i < |xs| && f(xs[i]).Raised?
    ensures ConcatAll(f, xs).Raised?
  {
    ConcatAllOk(f, xs);
  }

  /** The concatenation of the runs, for a list where nothing raised. */
  function Flatten<B>(runs: seq<seq<B>>): seq<B>
  {
    if runs == [] then [] else Flatten(runs[..|runs| - 1]) + runs[|runs| - 1]
  }

  /** The run of each element, for a list where nothing raised. */
  function Runs<A, B>(f: A -> Outcome<seq<B>>, xs: seq<A>): (runs: seq<seq<B>>)
    requires forall i :: 0 <= i < |xs| ==> f(xs[i]).Ok?
    ensures |runs| == |xs| && forall i :: 0 <= i < |xs| ==> runs[i] == f(xs[i]).value
  {
    seq(|xs|, i requires 0 <= i < |xs| => f(xs[i]).value)
  }

  /** ConcatAll succeeds exactly when no element raises, and then yields
      the runs of the elements one after another. */
  lemma {:induction false} ConcatAllOk<A, B>(f: A -> Outcome<seq<B>>, xs: seq<A>)
    ensures ConcatAll(f, xs).Ok? <==> forall i :: 0 <= i < |xs| ==> f(xs[i]).Ok?
    ensures ConcatAll(f, xs).Ok? ==>
              ConcatAll(f, xs).value == Flatten(Runs(f, xs))
  {
    if xs != [] {
      var init := xs[..|xs| - 1];
      ConcatAllOk(f, init);
      assert forall i :: 0 <= i < |init| ==> init[i] == xs[i];
      if ConcatAll(f, xs).Ok? {
        assert forall i :: 0 <= i < |xs| ==> f(xs[i]).Ok? by {
          forall i | 0 <= i < |xs| ensures f(xs[i]).Ok? {
            if i < |init| { assert f(init[i]).Ok?; }
          }
        }
        assert Runs(f, xs)[..|xs| - 1] == Runs(f, init);
      }
    }
  }

  /** An element that raises makes the whole list raise, wherever it is. */
  lemma MapAllMemberRaises<A, B>(f: A -> Outcome<B>, xs: seq<A>, x: A)
    requires x in xs && f(x).Raised?
    ensures MapAll(f, xs).Raised?
  {
    MapAllOk(f, xs);
    var i :| 0 <= i < |xs| && xs[i] == x;
  }

  /** The results of a concatenated list are the results of its two
      parts, concatenated. */
  lemma {:induction false} ConcatAllAppend<A, B>(f: A -> Outcome<seq<B>>, xs: seq<A>, ys: seq<A>)
    ensures ConcatAll(f, xs + ys) ==
              match ConcatAll(f, xs)
              case Raised => Raised
              case Ok(a) => (match ConcatAll(f, ys) case Raised => Raised case Ok(b) => Ok(a + b))
  {
    if ys == [] {
      assert xs + ys == xs;
      if ConcatAll(f, xs).Ok? {
        assert ConcatAll(f, xs).value + [] == ConcatAll(f, xs).value;
      }
    } else {
      var init := ys[..|ys| - 1];
      var y := ys[|ys| - 1];
      assert ys == init + [y];
      assert xs + ys == (xs + init) + [y];
      ConcatAllAppend(f, xs, init);
      ConcatAllSnoc(f, xs + init, y);
      ConcatAllSnoc(f, init, y);
      if ConcatAll(f, xs).Ok? && ConcatAll(f, init).Ok? && f(y).Ok? {
        var a := ConcatAll(f, xs).value;
        var b := ConcatAll(f, init).value;
        assert a + b + f(y).value == a + (b + f(y).value);
      }
    }
  }
}
