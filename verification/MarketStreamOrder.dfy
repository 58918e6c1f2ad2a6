/**
 When the order of the keys of a market-data message is irrelevant at every level: the keys of the
 object itself and those of the objects wrapped in it.
 */
module MarketStreamOrder {
  import Wrappers
  import opened MarketStreamParser

  /** Distinct keys in the object and in all objects wrapped in it. */
  ghost predicate AllDistinct(m: Message)
    decreases m
  {
    && DistinctFields(m.fields)
    && forall f :: f in m.fields && f.Data? ==> AllDistinct(f.payload)
  }

  /** Equal fields, except that a wrapped object may be rearranged. */
  ghost predicate Alike(f: Field, g: Field)
    decreases f, 0
  {
    if f.Data? && g.Data? then Rearranged(f.payload, g.payload) else f == g
  }

  ghost predicate HasTwin(f: Field, others: seq<Field>)
    decreases f, 1
  {
    exists g :: g in others && Alike(f, g)
  }

  ghost predicate IsTwin(g: Field, fields: seq<Field>)
    decreases fields
  {
    exists f :: f in fields && Alike(f, g)
  }

  /** For objects with distinct keys: the same fields in any order, at every level. */
  ghost predicate Rearranged(m: Message, other: Message)
    decreases m
  {
    && (forall f :: f in m.fields ==> HasTwin(f, other.fields))
    && (forall g :: g in other.fields ==> IsTwin(g, m.fields))
  }

  /** What is seen of an outcome from the outside: the result of a wrapped object is not passed on. */
  function Seen(outcome: Outcome, wrapped: bool): Outcome {
    if wrapped then Wrap(outcome) else outcome
  }

  ghost predicate SameVerdicts(m: Message, wrapped: bool, allowUnknown: bool) {
    var id, content := IdOf(m.fields), multiset(m.fields);
    forall f, g :: f in m.fields && g in m.fields && Decides(f, id) && Decides(g, id) ==>
      Seen(Verdict(f, id, content, allowUnknown), wrapped) == Seen(Verdict(g, id, content, allowUnknown), wrapped)
  }

  /** At every level the deciding fields agree on what is seen from the outside. */
  ghost predicate Agree(m: Message, wrapped: bool, allowUnknown: bool)
    decreases m
  {
    && SameVerdicts(m, wrapped, allowUnknown)
    && forall f :: f in m.fields && f.Data? ==> Agree(f.payload, true, allowUnknown)
  }

  lemma Twin(m: Message, other: Message, f: Field) returns (g: Field)
    requires Rearranged(m, other) && f in m.fields
    ensures g in other.fields && Alike(f, g)
    ensures if f.Data? then g.Data? && Rearranged(f.payload, g.payload) else g == f
  {
    hide IsTwin;
    assert HasTwin(f, other.fields);
    g :| g in other.fields && Alike(f, g);
  }

  lemma TwinBefore(m: Message, other: Message, g: Field) returns (f: Field)
    requires Rearranged(m, other) && g in other.fields
    ensures f in m.fields && Alike(f, g)
    ensures if g.Data? then f.Data? && Rearranged(f.payload, g.payload) else f == g
  {
    hide HasTwin;
    assert IsTwin(g, m.fields);
    f :| f in m.fields && Alike(f, g);
  }

  lemma DataVerdict(d: Field, id: int, content: multiset<Field>, allowUnknown: bool)
    requires d.Data?
    ensures Verdict(d, id, content, allowUnknown) == Wrap(DispatchOutcome(d.payload, allowUnknown))
  {
  }

  lemma EventVerdict(f: Field, id: int, content: multiset<Field>, allowUnknown: bool)
    requires Decides(f, id) && !f.Data?
    ensures var calls := Verdict(f, id, content, allowUnknown).calls;
            calls == [] || (|calls| == 1 && (calls[0].OnEvent? ==> f.EventType? && calls[0].content == content))
  {
  }

  // contents

  function Depth(f: Field): (r: nat)
    decreases f, 0
  {
    if f.Data? then 1 + DepthOf(f.payload.fields) else 0
  }

  function DepthOf(fields: seq<Field>): (r: nat)
    decreases fields
  {
    if fields == [] then 0
    else
      var first, rest := Depth(fields[0]), DepthOf(fields[1..]);
      if first > rest then first else rest
  }

  lemma {:induction false} DepthBounds(fields: seq<Field>, f: Field)
    requires f in fields
    ensures Depth(f) <= DepthOf(fields)
  {
    if f == fields[0] {
    } else {
      DepthBounds(fields[1..], f);
    }
  }

  /** No handler receives an object that is nested deeper than the message. */
  lemma {:induction false} ContentIsShallow(m: Message, allowUnknown: bool)
    requires AllDistinct(m)
    ensures forall call, f :: call in DispatchOutcome(m, allowUnknown).calls && call.OnEvent? && f in call.content ==>
              Depth(f) <= DepthOf(m.fields)
    decreases m
  {
    hide DispatchOutcome, DistinctFields, IdOf, DepthOf, Verdict, Depth;
    OutcomeIsAVerdict(m, allowUnknown);
    var id, content := IdOf(m.fields), multiset(m.fields);
    if d :| d in m.fields && Decides(d, id)
            && DispatchOutcome(m, allowUnknown) == Verdict(d, id, content, allowUnknown) {
      if d.Data? {
        DataVerdict(d, id, content, allowUnknown);
        ContentIsShallow(d.payload, allowUnknown);
        WrappedIsShallower(m.fields, d);
      } else {
        EventVerdict(d, id, content, allowUnknown);
        forall f | f in content ensures Depth(f) <= DepthOf(m.fields) {
          DepthBounds(m.fields, f);
        }
      }
    }
  }

  lemma WrappedIsShallower(fields: seq<Field>, d: Field)
    requires d in fields && d.Data?
    ensures DepthOf(d.payload.fields) < Depth(d) <= DepthOf(fields)
  {
    DepthBounds(fields, d);
  }

  lemma DistinctCount(fields: seq<Field>, f: Field)
    requires DistinctFields(fields)
    ensures multiset(fields)[f] == if f in fields then 1 else 0
  {
    if f in fields {
      var k :| 0 <= k < |fields| && fields[k] == f;
      assert fields == fields[..k] + [f] + fields[k + 1..];
      forall i | 0 <= i < |fields| && i != k ensures fields[i] != f {
        KeysDiffer(fields, i, k);
      }
      assert f !in fields[..k] && f !in fields[k + 1..];
    }
  }

  /** Without a wrapped object a rearrangement has the same content. */
  lemma SameContent(m: Message, other: Message)
    requires DistinctFields(m.fields) && DistinctFields(other.fields) && Rearranged(m, other)
    requires forall f :: f in m.fields ==> !f.Data?
    ensures multiset(m.fields) == multiset(other.fields)
  {
    hide DistinctFields, Rearranged, Alike, HasTwin, IsTwin;
    forall f ensures multiset(m.fields)[f] == multiset(other.fields)[f] {
      DistinctCount(m.fields, f);
      DistinctCount(other.fields, f);
      if f in m.fields {
        var g := Twin(m, other, f);
      }
      if f in other.fields {
        var g := TwinBefore(m, other, f);
      }
    }
  }

  /** If the verdicts agree, an event decides only in an object without a wrapped object. */
  lemma EventsHaveNoData(m: Message, f: Field, d: Field, wrapped: bool, allowUnknown: bool)
    requires AllDistinct(m) && SameVerdicts(m, wrapped, allowUnknown)
    requires f in m.fields && !f.Data? && Decides(f, IdOf(m.fields)) && d in m.fields && d.Data?
    ensures var calls := Verdict(f, IdOf(m.fields), multiset(m.fields), allowUnknown).calls;
            calls == [] || (|calls| == 1 && !calls[0].OnEvent?)
  {
    hide DispatchOutcome, DistinctFields, IdOf, Verdict, Depth, DepthOf;
    var id, content := IdOf(m.fields), multiset(m.fields);
    ContentIsShallow(d.payload, allowUnknown);
    WrappedIsShallower(m.fields, d);
    assert d in content && Decides(d, id);
    DataVerdict(d, id, content, allowUnknown);
    EventVerdict(f, id, content, allowUnknown);
    assert Seen(Verdict(f, id, content, allowUnknown), wrapped) == Seen(Verdict(d, id, content, allowUnknown), wrapped);
  }

  lemma SameVerdict(m: Message, other: Message, f: Field, wrapped: bool, allowUnknown: bool)
    requires AllDistinct(m) && AllDistinct(other) && Rearranged(m, other) && SameVerdicts(m, wrapped, allowUnknown)
    requires f in m.fields && !f.Data? && Decides(f, IdOf(m.fields))
    ensures Verdict(f, IdOf(m.fields), multiset(other.fields), allowUnknown)
            == Verdict(f, IdOf(m.fields), multiset(m.fields), allowUnknown)
  {
    hide DistinctFields, IdOf, Rearranged, SameVerdicts;
    if d :| d in m.fields && d.Data? {
      EventsHaveNoData(m, f, d, wrapped, allowUnknown);
    } else {
      SameContent(m, other);
    }
  }

  // if the verdicts agree

  lemma SameId(m: Message, other: Message)
    requires DistinctFields(m.fields) && DistinctFields(other.fields) && Rearranged(m, other)
    ensures IdOf(m.fields) == IdOf(other.fields)
  {
    hide DistinctFields, Rearranged, Alike, HasTwin, IsTwin;
    IdIsKnown(m.fields, -1);
    IdIsKnown(other.fields, -1);
    if f :| f in m.fields && f.Id? {
      var g := Twin(m, other, f);
    } else if g :| g in other.fields && g.Id? {
      var f := TwinBefore(m, other, g);
    }
  }

  lemma {:induction false} AgreeKeeps(m: Message, other: Message, wrapped: bool, allowUnknown: bool)
    requires AllDistinct(m) && AllDistinct(other) && Rearranged(m, other) && Agree(m, wrapped, allowUnknown)
    ensures Seen(DispatchOutcome(other, allowUnknown), wrapped) == Seen(DispatchOutcome(m, allowUnknown), wrapped)
    decreases m
  {
    hide DispatchOutcome, DistinctFields, IdOf, Rearranged, Alike, Verdict;
    var id := IdOf(m.fields);
    SameId(m, other);
    OutcomeIsAVerdict(m, allowUnknown);
    OutcomeIsAVerdict(other, allowUnknown);
    if g :| g in other.fields && Decides(g, id)
            && DispatchOutcome(other, allowUnknown) == Verdict(g, id, multiset(other.fields), allowUnknown) {
      var f := TwinBefore(m, other, g);
      assert Decides(f, id);
      if f.Data? {
        AgreeKeeps(f.payload, g.payload, true, allowUnknown);
        DataVerdict(f, id, multiset(m.fields), allowUnknown);
        DataVerdict(g, id, multiset(other.fields), allowUnknown);
      } else {
        SameVerdict(m, other, f, wrapped, allowUnknown);
      }
    } else {
      forall f | f in m.fields ensures !Decides(f, id) {
        var g := Twin(m, other, f);
      }
    }
  }

  // if they do not

  lemma {:induction false} RearrangedSelf(m: Message)
    ensures Rearranged(m, m)
    decreases m
  {
    hide HasTwin, IsTwin, Rearranged, Alike;
    forall f | f in m.fields ensures HasTwin(f, m.fields) && IsTwin(f, m.fields) {
      if f.Data? {
        RearrangedSelf(f.payload);
        AlikeData(f, f.payload);
      } else {
        AlikeSame(f);
      }
      Twins(f, f, m.fields, m.fields);
    }
    AlikeEverywhere(m, m);
  }

  /** A rearrangement of the object alone. */
  lemma RearrangedOutside(m: Message, other: Message)
    requires AllDistinct(m) && multiset(other.fields) == multiset(m.fields) && DistinctFields(other.fields)
    ensures AllDistinct(other) && Rearranged(m, other)
  {
    hide DistinctFields, Alike, HasTwin, IsTwin, Rearranged;
    Wrappers.SameMultisetSameElements(other.fields, m.fields);
    forall f | f in m.fields ensures HasTwin(f, other.fields) && IsTwin(f, m.fields) {
      AlikeSelf(f);
      Twins(f, f, m.fields, other.fields);
    }
    AlikeEverywhere(m, other);
  }

  lemma AlikeSame(f: Field)
    requires !f.Data?
    ensures Alike(f, f)
  {
  }

  lemma AlikeSelf(f: Field)
    ensures Alike(f, f)
  {
    hide Rearranged;
    if f.Data? {
      RearrangedSelf(f.payload);
    }
  }

  /** One of two rearrangements with different outcomes differs from the message itself. */
  lemma {:induction false} DisagreeBreaks(m: Message, wrapped: bool, allowUnknown: bool) returns (other: Message)
    requires AllDistinct(m) && !Agree(m, wrapped, allowUnknown)
    ensures AllDistinct(other) && Rearranged(m, other)
    ensures Seen(DispatchOutcome(other, allowUnknown), wrapped) != Seen(DispatchOutcome(m, allowUnknown), wrapped)
    decreases m
  {
    hide DispatchOutcome, DistinctFields, IdOf, Rearranged, Alike, Decides, Verdict;
    if SameVerdicts(m, wrapped, allowUnknown) {
      var d :| d in m.fields && d.Data? && !Agree(d.payload, true, allowUnknown);
      var payload := DisagreeBreaks(d.payload, true, allowUnknown);
      other := Exchange(m, d, payload, wrapped, allowUnknown);
    } else {
      var id, content := IdOf(m.fields), multiset(m.fields);
      var f, g :| f in m.fields && g in m.fields && Decides(f, id) && Decides(g, id)
                  && Seen(Verdict(f, id, content, allowUnknown), wrapped)
                     != Seen(Verdict(g, id, content, allowUnknown), wrapped);
      var first := CanDecide(m, f, allowUnknown);
      var second := CanDecide(m, g, allowUnknown);
      RearrangedOutside(m, first);
      RearrangedOutside(m, second);
      other := if Seen(DispatchOutcome(first, allowUnknown), wrapped) == Seen(DispatchOutcome(m, allowUnknown), wrapped)
      then second else first;
    }
  }

  /** Letting the wrapped object decide, with its keys as they are and with other ones. */
  lemma Exchange(m: Message, d: Field, payload: Message, wrapped: bool, allowUnknown: bool) returns (other: Message)
    requires AllDistinct(m) && d in m.fields && d.Data? && AllDistinct(payload) && Rearranged(d.payload, payload)
    requires Wrap(DispatchOutcome(payload, allowUnknown)) != Wrap(DispatchOutcome(d.payload, allowUnknown))
    ensures AllDistinct(other) && Rearranged(m, other)
    ensures Seen(DispatchOutcome(other, allowUnknown), wrapped) != Seen(DispatchOutcome(m, allowUnknown), wrapped)
  {
    hide DispatchOutcome, DistinctFields, IdOf, Rearranged, Alike, Verdict;
    var first := CanDecide(m, d, allowUnknown);
    RearrangedOutside(m, first);
    var m' := WithPayload(m, d, payload);
    DataVerdict(d, IdOf(m.fields), multiset(m.fields), allowUnknown);
    DataVerdict(Data(payload), IdOf(m'.fields), multiset(m'.fields), allowUnknown);
    var second := CanDecide(m', Data(payload), allowUnknown);
    RearrangedOutside(m', second);
    RearrangedInside(m, d, payload, m', second);
    other := if Seen(DispatchOutcome(first, allowUnknown), wrapped) == Seen(DispatchOutcome(m, allowUnknown), wrapped)
    then second else first;
  }

  lemma OnlyData(fields: seq<Field>, k: nat)
    requires DistinctFields(fields) && k < |fields| && fields[k].Data?
    ensures forall i :: 0 <= i < |fields| && i != k ==> !fields[i].Data?
  {
    hide DistinctFields;
    forall i | 0 <= i < |fields| && i != k ensures !fields[i].Data? {
      KeysDiffer(fields, i, k);
    }
  }

  lemma WithPayload(m: Message, d: Field, payload: Message) returns (other: Message)
    requires AllDistinct(m) && d in m.fields && d.Data? && AllDistinct(payload)
    ensures AllDistinct(other) && Data(payload) in other.fields
    ensures forall f :: f in other.fields <==> f == Data(payload) || (f in m.fields && !f.Data?)
  {
    var k :| 0 <= k < |m.fields| && m.fields[k] == d;
    var fields := m.fields[k := Data(payload)];
    assert fields[k] == Data(payload);
    OnlyData(m.fields, k);
    forall i, j | 0 <= i < j < |fields| ensures !SameKey(fields[i], fields[j]) {
      assert !SameKey(m.fields[i], m.fields[j]);
    }
    other := Message(fields);
    forall f | f in m.fields && !f.Data? ensures f in fields {
      var i :| 0 <= i < |fields| && m.fields[i] == f;
      assert fields[i] == f;
    }
  }

  lemma RearrangedInside(m: Message, d: Field, payload: Message, middle: Message, other: Message)
    requires AllDistinct(m) && d in m.fields && d.Data? && Rearranged(d.payload, payload)
    requires forall f :: f in middle.fields <==> f == Data(payload) || (f in m.fields && !f.Data?)
    requires multiset(other.fields) == multiset(middle.fields)
    ensures Rearranged(m, other)
  {
    hide Rearranged, Alike, HasTwin, IsTwin, DistinctFields;
    Wrappers.SameMultisetSameElements(other.fields, middle.fields);
    AlikeData(d, payload);
    forall f | f in m.fields ensures HasTwin(f, other.fields) {
      if f.Data? {
        OneData(m.fields, f, d);
        Twins(f, Data(payload), m.fields, other.fields);
      } else {
        AlikeSelf(f);
        Twins(f, f, m.fields, other.fields);
      }
    }
    forall g | g in other.fields ensures IsTwin(g, m.fields) {
      if g == Data(payload) {
        Twins(d, g, m.fields, other.fields);
      } else {
        AlikeSelf(g);
        Twins(g, g, m.fields, other.fields);
      }
    }
    AlikeEverywhere(m, other);
  }

  lemma AlikeData(d: Field, payload: Message)
    requires d.Data? && Rearranged(d.payload, payload)
    ensures Alike(d, Data(payload))
  {
    hide Rearranged;
  }

  lemma Twins(f: Field, g: Field, fields: seq<Field>, others: seq<Field>)
    requires f in fields && g in others && Alike(f, g)
    ensures HasTwin(f, others) && IsTwin(g, fields)
  {
    hide Alike;
  }

  lemma AlikeEverywhere(m: Message, other: Message)
    requires forall f :: f in m.fields ==> HasTwin(f, other.fields)
    requires forall g :: g in other.fields ==> IsTwin(g, m.fields)
    ensures Rearranged(m, other)
  {
    hide HasTwin, IsTwin;
  }

  lemma OneData(fields: seq<Field>, f: Field, d: Field)
    requires DistinctFields(fields) && f in fields && d in fields && f.Data? && d.Data?
    ensures f == d
  {
    hide DistinctFields;
    var i :| 0 <= i < |fields| && fields[i] == f;
    var j :| 0 <= j < |fields| && fields[j] == d;
    if i != j {
      KeysDiffer(fields, i, j);
    }
  }

  /**
   When the order of the keys is irrelevant at every level.  For a message with distinct keys every
   rearrangement -- of its own keys and of those wrapped in it -- has the same outcome if and only if
   at every level all deciding fields agree.
   */
  lemma OrderIndependence(m: Message, allowUnknown: bool)
    requires AllDistinct(m)
    ensures Agree(m, false, allowUnknown)
            <==> forall other: Message :: AllDistinct(other) && Rearranged(m, other) ==>
                   DispatchOutcome(other, allowUnknown) == DispatchOutcome(m, allowUnknown)
  {
    hide Agree, Rearranged, AllDistinct, DispatchOutcome;
    if Agree(m, false, allowUnknown) {
      forall other: Message | AllDistinct(other) && Rearranged(m, other)
        ensures DispatchOutcome(other, allowUnknown) == DispatchOutcome(m, allowUnknown)
      {
        AgreeKeeps(m, other, false, allowUnknown);
      }
    } else {
      var other := DisagreeBreaks(m, false, allowUnknown);
    }
  }
}
