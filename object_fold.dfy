/**
  The category fold exactly as app.js writes it: the accumulator is a plain
  object literal `{}`, so a lookup `acc[category]` that finds no own property
  falls through to the members every object inherits from Object.prototype.

  For a category named like one of those members, `acc[category] || 0` is the
  inherited function (or, for `__proto__`, the prototype object) rather than 0,
  `+ amount` turns it into a string, and for `__proto__` the assignment of that
  string is ignored. Aggregate.TotalByCategory is the corrected fold, on a map
  that holds only the categories put into it.
 */
module PlainObjectFold {
  import opened Records
  import Aggregate

  /** The property names a plain object inherits from Object.prototype. */
  const PrototypeKeys: set<string> := {
    "constructor", "hasOwnProperty", "isPrototypeOf", "propertyIsEnumerable",
    "toLocaleString", "toString", "valueOf", "__proto__",
    "__defineGetter__", "__defineSetter__", "__lookupGetter__", "__lookupSetter__"
  }

  /**
    An own property of the accumulator: a number, or a string that `+` made
    out of an inherited member and an amount.
   */
  datatype Slot = Num(n: real) | NotNumber

  /** `(acc[category] || 0) + amount` on the plain object. */
  function Bumped(acc: map<string, Slot>, category: string, amount: Amount): Slot
  {
    if category in acc then
      match acc[category]
      case Num(n) => Num(n + amount)
      case NotNumber => NotNumber
    else if category in PrototypeKeys then NotNumber
    else Num(amount)
  }

  /** `acc[category] = v`; assigning a string to `__proto__` leaves the object as it was. */
  function Assigned(acc: map<string, Slot>, category: string, v: Slot): map<string, Slot>
  {
    if category == "__proto__" then acc else acc[category := v]
  }

  /** The fold of app.js lines 69-72 and 122-125 as written. */
  function ObjectTotals(s: seq<Expense>): (r: map<string, Slot>)
    ensures r.Keys == Aggregate.Categories(s) - {"__proto__"}
  {
    if s == [] then map[]
    else
      var init := s[..|s| - 1];
      var acc := ObjectTotals(init);
      var e := s[|s| - 1];
      assert Aggregate.Categories(s) == Aggregate.Categories(init) + {e.category} by {
        assert s == init + [e];
      }
      Assigned(acc, e.category, Bumped(acc, e.category, e.amount))
  }

  /** The corrected totals seen as own properties of the object. */
  function AsSlots(m: map<string, Amount>): map<string, Slot>
  {
    map c | c in m :: Num(m[c])
  }

  /**
    As long as no expense's category is an inherited property name, the fold
    as written agrees with the corrected one.
   */
  lemma {:induction false} ObjectTotalsAgree(s: seq<Expense>)
    requires forall i :: 0 <= i < |s| ==> s[i].category !in PrototypeKeys
    ensures ObjectTotals(s) == AsSlots(Aggregate.TotalByCategory(s))
  {
    if s != [] {
      var init, e := s[..|s| - 1], s[|s| - 1];
      assert forall i :: 0 <= i < |init| ==> init[i] == s[i];
      ObjectTotalsAgree(init);
      var m := Aggregate.TotalByCategory(init);
      assert Aggregate.TotalByCategory(s) == Aggregate.AddToCategory(m, e);
      StepAgrees(m, e);
    }
  }

  /** One step of the two folds, from accumulators that agree. */
  lemma StepAgrees(m: map<string, Amount>, e: Expense)
    requires e.category !in PrototypeKeys
    ensures Assigned(AsSlots(m), e.category, Bumped(AsSlots(m), e.category, e.amount))
            == AsSlots(Aggregate.AddToCategory(m, e))
  {
    var x := (if e.category in m then m[e.category] else 0.0) + e.amount;
    assert e.category != "__proto__";
    assert Bumped(AsSlots(m), e.category, e.amount) == Num(x);
    assert AsSlots(m[e.category := x]) == AsSlots(m)[e.category := Num(x)];
  }

  /** One expense of category "toString": the stored total is a string, not the amount. */
  lemma ToStringCategoryIsNotANumber(e: Expense)
    requires e.category == "toString"
    ensures ObjectTotals([e]) == map["toString" := NotNumber]
    ensures Aggregate.TotalByCategory([e]) == map["toString" := e.amount]
  {
    assert [e][..0] == [];
  }

  /** One expense of category "__proto__": its category has no entry at all. */
  lemma ProtoCategoryIsLost(e: Expense)
    requires e.category == "__proto__"
    ensures ObjectTotals([e]) == map[]
    ensures "__proto__" in Aggregate.TotalByCategory([e])
  {
    assert [e][..0] == [];
  }
}
