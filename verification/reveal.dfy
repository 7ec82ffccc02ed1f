/**
 * Reveal-on-scroll of main.js (`initializeAnimations`). Every matched element
 * is given the hidden-state classes and observed; the first time the browser
 * reports it intersecting the viewport it receives the visible-state classes,
 * loses the hidden-state ones and is unobserved. Elements are numbered;
 * each one's class list is a set of class names.
 */
module Reveal {

  type Element = nat

  const HiddenClasses: set<string> := {"opacity-0", "translate-y-4"}
  const VisibleClasses: set<string> := {"opacity-100", "translate-y-0"}
  const SetupClasses: set<string> := HiddenClasses + {"transition", "duration-700"}

  /** One `IntersectionObserverEntry` delivered to the callback. */
  datatype Entry = Entry(target: Element, isIntersecting: bool)

  /** Class lists of the page's elements and the observer's set of observed targets. */
  datatype View = View(classList: map<Element, set<string>>, observed: set<Element>)

  /** An element's class list; an element never seen has none. */
  function ClassesOf(classList: map<Element, set<string>>, e: Element): set<string> {
    if e in classList then classList[e] else {}
  }

  /** Shown: every visible-state class present and no hidden-state class left. */
  predicate Revealed(classes: set<string>) {
    VisibleClasses <= classes && classes !! HiddenClasses
  }

  /** `classList.add('opacity-100', 'translate-y-0')` then `classList.remove('opacity-0', 'translate-y-4')`. */
  function Show(classes: set<string>): (r: set<string>)
    ensures Revealed(r)
    ensures r - VisibleClasses == classes - VisibleClasses - HiddenClasses
  {
    (classes + VisibleClasses) - HiddenClasses
  }

  /** The callback's work for one entry. */
  function Handle(v: View, entry: Entry): View {
    if entry.isIntersecting then
      View(v.classList[entry.target := Show(ClassesOf(v.classList, entry.target))],
           v.observed - {entry.target})
    else v
  }

  /** The callback over a batch of entries, in order. */
  function HandleAll(v: View, entries: seq<Entry>): View
    decreases |entries|
  {
    if entries == [] then v
    else Handle(HandleAll(v, entries[..|entries| - 1]), entries[|entries| - 1])
  }

  /** Some entry of the batch reports `e` intersecting. */
  predicate Intersects(entries: seq<Entry>, e: Element) {
    exists k :: 0 <= k < |entries| && entries[k] == Entry(e, true)
  }

  class Observer {
    var classList: map<Element, set<string>>
    var observed: set<Element>

    function State(): View
      reads this
    {
      View(classList, observed)
    }

    /** `initializeAnimations`: prepare and observe every matched element, in document order. */
    constructor (elements: seq<Element>, classList: map<Element, set<string>>)
      ensures observed == set e | e in elements
      ensures forall e :: ClassesOf(this.classList, e) ==
                (if e in elements then ClassesOf(classList, e) + SetupClasses else ClassesOf(classList, e))
    {
      this.classList := classList;
      observed := {};
      new;
      var k := 0;
      while k < |elements|
        invariant 0 <= k <= |elements|
        invariant observed == set e | e in elements[..k]
        invariant forall e :: ClassesOf(this.classList, e) ==
                    (if e in elements[..k] then ClassesOf(classList, e) + SetupClasses else ClassesOf(classList, e))
      {
        var el := elements[k];
        this.classList := this.classList[el := ClassesOf(this.classList, el) + SetupClasses];
        observed := observed + {el};
        assert elements[..k + 1] == elements[..k] + [el];
        k := k + 1;
      }
      assert elements[..k] == elements;
    }

    /** The observer callback: `entries.forEach(...)`. */
    method Callback(entries: seq<Entry>)
      modifies this
      ensures State() == HandleAll(old(State()), entries)
    {
      var k := 0;
      while k < |entries|
        invariant 0 <= k <= |entries|
        invariant State() == HandleAll(old(State()), entries[..k])
      {
        var entry := entries[k];
        if entry.isIntersecting {
          classList := classList[entry.target := ClassesOf(classList, entry.target) + VisibleClasses];
          classList := classList[entry.target := classList[entry.target] - HiddenClasses];
          observed := observed - {entry.target};
        }
        assert entries[..k + 1][..k] == entries[..k];
        k := k + 1;
      }
      assert entries[..k] == entries;
    }
  }

  /**
   * After a batch, an element some entry reported intersecting is shown and
   * no longer observed; any other element keeps its classes and its
   * observed status.
   */
  lemma {:induction false} CallbackEffect(v: View, entries: seq<Entry>, e: Element)
    ensures Intersects(entries, e) ==>
              Revealed(ClassesOf(HandleAll(v, entries).classList, e)) && e !in HandleAll(v, entries).observed
    ensures !Intersects(entries, e) ==>
              ClassesOf(HandleAll(v, entries).classList, e) == ClassesOf(v.classList, e) &&
              (e in HandleAll(v, entries).observed <==> e in v.observed)
    decreases |entries|
  {
    if entries != [] {
      var init := entries[..|entries| - 1];
      var last := entries[|entries| - 1];
      CallbackEffect(v, init, e);
      if Intersects(init, e) {
        var k :| 0 <= k < |init| && init[k] == Entry(e, true);
        assert entries[k] == Entry(e, true);
      } else if Intersects(entries, e) {
        var k :| 0 <= k < |entries| && entries[k] == Entry(e, true);
        assert k == |init|;
      }
    }
  }

  /** A shown element is never hidden again: no later batch changes its class list at all. */
  lemma {:induction false} NeverRehidden(v: View, entries: seq<Entry>, e: Element)
    requires Revealed(ClassesOf(v.classList, e))
    ensures ClassesOf(HandleAll(v, entries).classList, e) == ClassesOf(v.classList, e)
    decreases |entries|
  {
    if entries != [] {
      NeverRehidden(v, entries[..|entries| - 1], e);
    }
  }

  /**
   * The observed set only shrinks, so an element is revealed at most once:
   * after its first intersecting report it is unobserved, and the browser
   * delivers entries only for observed targets.
   */
  lemma {:induction false} ObservedShrinks(v: View, entries: seq<Entry>)
    ensures HandleAll(v, entries).observed <= v.observed
    ensures forall e :: e in v.observed - HandleAll(v, entries).observed ==> Intersects(entries, e)
    decreases |entries|
  {
    if entries != [] {
      ObservedShrinks(v, entries[..|entries| - 1]);
      forall e | e in v.observed - HandleAll(v, entries).observed
        ensures Intersects(entries, e)
      {
        CallbackEffect(v, entries, e);
      }
    }
  }

  /**
   * Revealed at most once: once a batch has reported `e` intersecting, `e` is
   * unobserved, so no later batch of entries for observed targets reports it
   * again.
   */
  lemma RevealedOnce(v: View, first: seq<Entry>, second: seq<Entry>, e: Element)
    requires Intersects(first, e)
    requires forall k :: 0 <= k < |second| ==> second[k].target in HandleAll(v, first).observed
    ensures forall k :: 0 <= k < |second| ==> second[k].target != e
  {
    CallbackEffect(v, first, e);
  }
}
