/**
  Element assembly of calculateElements (lines 100-134): an orbital-element set is
  advanced to a time by linear secular drift, or copied when it is already a
  literal snapshot; w and M are derived when missing and a is turned into metres.
*/
module Elements {
  import opened Options
  import opened Numerics

  /** The numeric fields of a JavaScript element record, by name. */
  type Elements = map<string, real>

  /**
    An orbital-element set as a body is configured with: values at J2000 in
    `base`, rates per Julian century in `cy` or per day in `day`, the name of the
    body the orbit is around, and the set's own numeric fields, which are the
    snapshot itself when there is no `base`.
  */
  datatype ElementSet = ElementSet(
    base: Option<Elements>,
    cy: Option<Elements>,
    day: Option<Elements>,
    relativeTo: Option<string>,
    fields: Elements)

  /** Lines 100-101: seconds since J2000 to Julian centuries. */
  function Centuries(t: real): real {
    t / DAY / CENTURY
  }

  /**
    Line 117 reads `day[el]` whenever there is no `cy` table; without a `day`
    table either, that throws as soon as `base` has a key.
  */
  predicate RatesAvailable(es: ElementSet) {
    es.base.Some? && es.base.value != map[] && es.cy.None? ==> es.day.Some?
  }

  /**
    Lines 117-118: the per-century rate of element `el`, from `cy` when that table
    exists and otherwise from the per-day table times the century length; a
    missing rate counts as 0.
  */
  function Rate(es: ElementSet, el: string): (rate: real)
    requires es.cy.Some? || es.day.Some?
    ensures es.cy.Some? ==> rate == (if el in es.cy.value then es.cy.value[el] else 0.0)
    ensures es.cy.None? && el in es.day.value ==> rate == es.day.value[el] * CENTURY
    ensures (es.cy.Some? && el !in es.cy.value) || (es.cy.None? && el !in es.day.value) ==> rate == 0.0
  {
    var variation :=
      if es.cy.Some? then (if el in es.cy.value then es.cy.value[el] else 0.0)
      else (if el in es.day.value then es.day.value[el] * CENTURY else 0.0);
    variation
  }

  /** Line 119: the value of base element `el` after `T` centuries of drift. */
  function Drifted(es: ElementSet, el: string, T: real): real
    requires es.base.Some? && RatesAvailable(es) && el in es.base.value
  {
    es.base.value[el] + Rate(es, el) * T
  }

  /** Lines 103-105 and 112-120: the record the `base` path builds at time `t`. */
  function Propagated(es: ElementSet, t: real): Elements
    requires es.base.Some? && RatesAvailable(es)
  {
    map["t" := t] + map el | el in es.base.value :: Drifted(es, el, Centuries(t))
  }

  /**
    Lines 103-120 as the source runs them: start from `{t}` and write one field
    per key of `base`, in whatever order the keys come.
  */
  method PropagateBase(es: ElementSet, t: real) returns (computed: Elements)
    requires es.base.Some? && RatesAvailable(es)
    ensures computed == Propagated(es, t)
  {
    var tDays := t / DAY;
    var T := tDays / CENTURY;
    var base := es.base.value;
    computed := map["t" := t];
    var todo := base.Keys;
    while todo != {}
      invariant todo <= base.Keys
      invariant computed.Keys == {"t"} + (base.Keys - todo)
      invariant forall el :: el in base && el !in todo ==> computed[el] == Drifted(es, el, T)
      invariant "t" !in base || "t" in todo ==> computed["t"] == t
      decreases todo
    {
      var el :| el in todo;
      var variation := Rate(es, el);
      computed := computed[el := base[el] + variation * T];
      todo := todo - {el};
    }
    assert T == Centuries(t);
    assert computed.Keys == Propagated(es, t).Keys;
    assert forall el :: el in base ==> computed[el] == Propagated(es, t)[el];
  }

  /** The propagated value of a base element is its drifted value. */
  lemma PropagatedAt(es: ElementSet, t: real, el: string)
    requires es.base.Some? && RatesAvailable(es) && el in es.base.value
    ensures Propagated(es, t)[el] == Drifted(es, el, Centuries(t))
  {
  }

  /** Every value of `base` is its value at the J2000 epoch. */
  lemma PropagatedAtEpoch(es: ElementSet)
    requires es.base.Some? && RatesAvailable(es)
    ensures forall el :: el in es.base.value ==> Propagated(es, 0.0)[el] == es.base.value[el]
  {
  }

  /** All-zero or absent rates leave every base value unchanged at any time. */
  lemma ZeroRatesKeepBase(es: ElementSet, t: real)
    requires es.base.Some? && RatesAvailable(es)
    requires forall el :: el in es.base.value && (es.cy.Some? || es.day.Some?) ==> Rate(es, el) == 0.0
    ensures forall el :: el in es.base.value ==> Propagated(es, t)[el] == es.base.value[el]
  {
  }

  /** A per-day rate drifts the element by that rate for every day since J2000. */
  lemma {:induction false} DayRateIsPerDay(es: ElementSet, t: real, el: string)
    requires es.base.Some? && RatesAvailable(es) && el in es.base.value
    requires es.cy.None? && el in es.day.value
    ensures Propagated(es, t)[el] == es.base.value[el] + es.day.value[el] * (t / DAY)
  {
    var d := es.day.value[el];
    calc {
      Rate(es, el) * Centuries(t);
      (d * CENTURY) * ((t / DAY) / CENTURY);
      { assert CENTURY * ((t / DAY) / CENTURY) == t / DAY; }
      d * (t / DAY);
    }
  }

  /** The drift is linear in time: the drift over s + t is the drift over s plus the drift over t. */
  lemma {:induction false} DriftIsLinear(es: ElementSet, s: real, t: real, el: string)
    requires es.base.Some? && RatesAvailable(es) && el in es.base.value
    ensures Propagated(es, s + t)[el] - es.base.value[el]
         == (Propagated(es, s)[el] - es.base.value[el]) + (Propagated(es, t)[el] - es.base.value[el])
  {
    PropagatedAt(es, s + t, el);
    PropagatedAt(es, s, el);
    PropagatedAt(es, t, el);
    CenturiesAdd(s, t);
    DriftedAdd(es, el, Centuries(s), Centuries(t));
  }

  lemma CenturiesAdd(s: real, t: real)
    ensures Centuries(s + t) == Centuries(s) + Centuries(t)
  {
  }

  /** The drift is linear in the number of centuries. */
  lemma DriftedAdd(es: ElementSet, el: string, a: real, b: real)
    requires es.base.Some? && RatesAvailable(es) && el in es.base.value
    ensures Drifted(es, el, a + b) - es.base.value[el]
         == (Drifted(es, el, a) - es.base.value[el]) + (Drifted(es, el, b) - es.base.value[el])
  {
    Distributes(Rate(es, el), a, b);
  }

  lemma Distributes(x: real, a: real, b: real)
    ensures x * (a + b) == x * a + x * b
  {
  }

  /**
    Lines 125-131: `w` becomes `lp - o` and `M` becomes `l - lp`, only when they
    are missing; supplied values are never overwritten.
  */
  function DeriveAngles(c: Elements): (d: Elements)
    requires "w" in c || ("lp" in c && "o" in c)
    requires "M" in c || ("l" in c && "lp" in c)
    ensures d.Keys == c.Keys + {"w", "M"}
    ensures forall k :: k in c ==> d[k] == c[k]
    ensures "w" !in c ==> d["w"] + d["o"] == d["lp"]
    ensures "M" !in c ==> d["M"] + d["lp"] == d["l"]
  {
    var withW := if "w" !in c then c["w" := c["lp"] - c["o"]] else c;
    if "M" !in withW then withW["M" := withW["l"] - withW["lp"]] else withW
  }

  /** Deriving a second time changes nothing. */
  lemma DeriveAnglesIdempotent(c: Elements)
    requires "w" in c || ("lp" in c && "o" in c)
    requires "M" in c || ("l" in c && "lp" in c)
    ensures DeriveAngles(DeriveAngles(c)) == DeriveAngles(c)
  {
  }

  /** The fields of the record line 112 starts from: `base`'s keys and `t`, or the literal set's own. */
  function RawKeys(es: ElementSet): set<string> {
    if es.base.Some? then es.base.value.Keys + {"t"} else es.fields.Keys
  }

  /** What lines 112-133 need to produce numbers rather than NaN or a TypeError. */
  predicate Propagatable(es: ElementSet) {
    && RatesAvailable(es)
    && "a" in RawKeys(es)
    && ("w" in RawKeys(es) || ("lp" in RawKeys(es) && "o" in RawKeys(es)))
    && ("M" in RawKeys(es) || ("l" in RawKeys(es) && "lp" in RawKeys(es)))
  }

  /** The record of lines 112-123 before derivation: propagated from `base`, or the literal set copied. */
  function Raw(es: ElementSet, t: real): (c: Elements)
    requires RatesAvailable(es)
    ensures c.Keys == RawKeys(es)
  {
    if es.base.Some? then Propagated(es, t) else es.fields
  }

  /**
    Lines 112-133: the propagated or copied record with w and M derived and a
    converted from kilometres to metres.
  */
  function Assemble(es: ElementSet, t: real): (c: Elements)
    requires Propagatable(es)
    ensures c.Keys == RawKeys(es) + {"w", "M"}
    ensures c["a"] == Raw(es, t)["a"] * KM
    ensures forall k :: k in Raw(es, t) && k != "a" ==> c[k] == Raw(es, t)[k]
  {
    var d := DeriveAngles(Raw(es, t));
    d["a" := d["a"] * KM]
  }

  /** Lines 125-131 as the source runs them: fill in w, then M, where missing. */
  method DeriveMissing(c: Elements) returns (d: Elements)
    requires "w" in c || ("lp" in c && "o" in c)
    requires "M" in c || ("l" in c && "lp" in c)
    ensures d == DeriveAngles(c)
  {
    d := c;
    if "w" !in d {
      d := d["w" := d["lp"] - d["o"]];
    }
    if "M" !in d {
      d := d["M" := d["l"] - d["lp"]];
    }
  }

  /** Lines 112-133 as the source runs them: propagate or copy, derive w and M, scale a. */
  method AssembleSet(orbitalElements: ElementSet, t: real) returns (computed: Elements)
    requires Propagatable(orbitalElements)
    ensures computed == Assemble(orbitalElements, t)
  {
    if orbitalElements.base.Some? {
      computed := PropagateBase(orbitalElements, t);
    } else {
      computed := orbitalElements.fields;
    }
    computed := DeriveMissing(computed);
    computed := computed["a" := computed["a"] * KM];
  }

  /** Without `base`, the set is copied as it stands, so the result does not depend on the time. */
  lemma LiteralSetIgnoresTime(es: ElementSet, s: real, t: real)
    requires Propagatable(es) && es.base.None?
    ensures Assemble(es, s) == Assemble(es, t)
    ensures "t" !in es.fields ==> "t" !in Assemble(es, t)
  {
  }
}
