/**
 Merging redundant market-data streams.  Several streams offer updates of the same symbols; a
 watermark per symbol and feed lets an update through only if nothing newer was offered before.
 */
module StreamMerge {

  datatype Feed = TopOfBook | MarketByPrice

  /** An update offered by some stream, with its 64-bit signed update id. */
  datatype Offer = Offer(feed: Feed, symbol: string, id: int)

  datatype Watermarks = Watermarks(tob: int, mbp: int) {
    function Get(feed: Feed): int {
      if feed == TopOfBook then tob else mbp
    }

    function Set(feed: Feed, id: int): Watermarks {
      if feed == TopOfBook then this.(tob := id) else this.(mbp := id)
    }
  }

  type Instruments = map<string, Watermarks>

  /** An instrument is created with zero watermarks when it is first looked up. */
  function Lookup(s: Instruments, symbol: string): Watermarks {
    if symbol in s then s[symbol] else Watermarks(0, 0)
  }

  predicate Accepts(s: Instruments, o: Offer) {
    o.id >= Lookup(s, o.symbol).Get(o.feed)
  }

  function Update(s: Instruments, o: Offer): Instruments {
    var w := Lookup(s, o.symbol);
    s[o.symbol := if Accepts(s, o) then w.Set(o.feed, o.id) else w]
  }

  function After(offers: seq<Offer>): Instruments {
    if offers == [] then map[] else Update(After(offers[..|offers| - 1]), offers[|offers| - 1])
  }

  /** The updates let through, in order. */
  function Published(offers: seq<Offer>): seq<Offer> {
    if offers == [] then []
    else
      var n := |offers| - 1;
      Published(offers[..n]) + if Accepts(After(offers[..n]), offers[n]) then [offers[n]] else []
  }

  predicate SameBook(o: Offer, feed: Feed, symbol: string) {
    o.feed == feed && o.symbol == symbol
  }

  /** A watermark is the largest id offered so far for its symbol and feed, and never below zero. */
  lemma {:induction false} WatermarkIsMaximum(offers: seq<Offer>, feed: Feed, symbol: string)
    ensures var w := Lookup(After(offers), symbol).Get(feed);
            && w >= 0
            && (forall o :: o in offers && SameBook(o, feed, symbol) ==> o.id <= w)
            && (w == 0 || exists o :: o in offers && SameBook(o, feed, symbol) && o.id == w)
  {
    if offers == [] {
    } else {
      var n := |offers| - 1;
      WatermarkIsMaximum(offers[..n], feed, symbol);
      assert offers == offers[..n] + [offers[n]];
      var w := Lookup(After(offers[..n]), symbol).Get(feed);
      if SameBook(offers[n], feed, symbol) && offers[n].id >= w {
        assert offers[n] in offers && SameBook(offers[n], feed, symbol);
      } else if w != 0 {
        var o :| o in offers[..n] && SameBook(o, feed, symbol) && o.id == w;
        assert o in offers && SameBook(o, feed, symbol);
      }
    }
  }

  /** An update is let through exactly when its id is not negative and nothing newer was offered before it. */
  lemma PublishedIffNewest(offers: seq<Offer>, i: nat)
    requires i < |offers|
    ensures Accepts(After(offers[..i]), offers[i])
            <==> offers[i].id >= 0
                 && forall j :: 0 <= j < i && SameBook(offers[j], offers[i].feed, offers[i].symbol) ==>
                      offers[j].id <= offers[i].id
  {
    var o := offers[i];
    WatermarkIsMaximum(offers[..i], o.feed, o.symbol);
    if !Accepts(After(offers[..i]), o) && o.id >= 0 {
      var p :| p in offers[..i] && SameBook(p, o.feed, o.symbol) && p.id > o.id;
      var j :| 0 <= j < i && offers[j] == p;
    } else {
      forall j | 0 <= j < i && SameBook(offers[j], o.feed, o.symbol)
        ensures Accepts(After(offers[..i]), o) ==> offers[j].id <= o.id
      {
        assert offers[..i][j] in offers[..i];
      }
    }
  }

  function Only(offers: seq<Offer>, feed: Feed, symbol: string): seq<Offer> {
    if offers == [] then []
    else
      var last := offers[|offers| - 1];
      Only(offers[..|offers| - 1], feed, symbol) + if SameBook(last, feed, symbol) then [last] else []
  }

  lemma OnlyAppend(offers: seq<Offer>, o: Offer, feed: Feed, symbol: string)
    ensures Only(offers + [o], feed, symbol)
            == Only(offers, feed, symbol) + if SameBook(o, feed, symbol) then [o] else []
  {
    assert (offers + [o])[..|offers|] == offers;
  }

  lemma PublishedAppend(offers: seq<Offer>, o: Offer)
    ensures Published(offers + [o]) == if Accepts(After(offers), o) then Published(offers) + [o] else Published(offers)
    ensures After(offers + [o]) == Update(After(offers), o)
  {
    assert (offers + [o])[..|offers|] == offers;
  }

  function Watermark(offers: seq<Offer>, feed: Feed, symbol: string): int {
    Lookup(After(offers), symbol).Get(feed)
  }

  /** What is published for one symbol and feed. */
  function Book(offers: seq<Offer>, feed: Feed, symbol: string): seq<Offer> {
    Only(Published(offers), feed, symbol)
  }

  /** One more offer, seen from one book. */
  lemma BookAppend(offers: seq<Offer>, o: Offer, feed: Feed, symbol: string)
    ensures var accepted := SameBook(o, feed, symbol) && o.id >= Watermark(offers, feed, symbol);
            && Watermark(offers + [o], feed, symbol) == (if accepted then o.id else Watermark(offers, feed, symbol))
            && Book(offers + [o], feed, symbol) == Book(offers, feed, symbol) + if accepted then [o] else []
  {
    PublishedAppend(offers, o);
    OnlyAppend(Published(offers), o, feed, symbol);
    hide After, Published, Only;
  }

  /** Books do not affect each other: what is published for one depends only on the offers for it. */
  lemma {:induction false} BooksAreIndependent(offers: seq<Offer>, feed: Feed, symbol: string)
    ensures Book(offers, feed, symbol) == Book(Only(offers, feed, symbol), feed, symbol)
    ensures Watermark(offers, feed, symbol) == Watermark(Only(offers, feed, symbol), feed, symbol)
  {
    hide Watermark, Book;
    if offers == [] {
    } else {
      var n := |offers| - 1;
      var o, before := offers[n], offers[..n];
      assert offers == before + [o];
      BooksAreIndependent(before, feed, symbol);
      OnlyAppend(before, o, feed, symbol);
      BookAppend(before, o, feed, symbol);
      BookAppend(Only(before, feed, symbol), o, feed, symbol);
      if !SameBook(o, feed, symbol) {
        assert Only(offers, feed, symbol) == Only(before, feed, symbol);
      }
    }
  }

  ghost predicate Ascending(offers: seq<Offer>) {
    forall i, j :: 0 <= i < j < |offers| ==> offers[i].id <= offers[j].id
  }

  /** The ids published for a symbol never decrease, and the last one is the largest ever offered. */
  lemma {:induction false} PublishedAscends(offers: seq<Offer>, feed: Feed, symbol: string)
    ensures var p, w := Book(offers, feed, symbol), Watermark(offers, feed, symbol);
            && Ascending(p)
            && (if p == [] then w == 0 else w == p[|p| - 1].id)
            && (p == [] <==> forall o :: o in offers && SameBook(o, feed, symbol) ==> o.id < 0)
  {
    NothingBefore(feed, symbol);
    hide Watermark, Book;
    if offers == [] {
    } else {
      var n := |offers| - 1;
      var o, before := offers[n], offers[..n];
      assert offers == before + [o];
      PublishedAscends(before, feed, symbol);
      BookAppend(before, o, feed, symbol);
    }
  }

  lemma NothingBefore(feed: Feed, symbol: string)
    ensures Book([], feed, symbol) == [] && Watermark([], feed, symbol) == 0
  {
  }

  /** An update is a lookup, which may create the instrument, followed by setting its watermark. */
  lemma UpdateLookup(m: Instruments, o: Offer)
    ensures var n, w := m[o.symbol := Lookup(m, o.symbol)], Lookup(m, o.symbol);
            && n[o.symbol] == w
            && n[o.symbol := if o.id >= w.Get(o.feed) then w.Set(o.feed, o.id) else w] == Update(m, o)
  {
  }

  // the objects

  class Instrument {
    ghost const symbol: string
    var tobLastUpdateId: int
    var mbpLastUpdateId: int

    ghost function View(): Watermarks
      reads this
    {
      Watermarks(tobLastUpdateId, mbpLastUpdateId)
    }

    constructor (ghost symbol: string)
      ensures this.symbol == symbol && View() == Watermarks(0, 0)
    {
      this.symbol := symbol;
      tobLastUpdateId, mbpLastUpdateId := 0, 0;
    }

    method TobUpdate(updateId: int) returns (accepted: bool)
      modifies this
      ensures accepted == (updateId >= old(View()).Get(TopOfBook))
      ensures View() == if accepted then old(View()).Set(TopOfBook, updateId) else old(View())
    {
      if updateId < tobLastUpdateId {
        return false;
      }
      tobLastUpdateId := updateId;
      return true;
    }

    method MbpUpdate(updateId: int) returns (accepted: bool)
      modifies this
      ensures accepted == (updateId >= old(View()).Get(MarketByPrice))
      ensures View() == if accepted then old(View()).Set(MarketByPrice, updateId) else old(View())
    {
      if updateId < mbpLastUpdateId {
        return false;
      }
      mbpLastUpdateId := updateId;
      return true;
    }
  }

  class Shared {
    var instruments: map<string, Instrument>
    ghost var offers: seq<Offer>
    ghost var published: seq<Offer>
    ghost var owned: set<Instrument>

    /** The instruments have the given watermarks; each is filed under its own symbol. */
    ghost predicate Matches(m: Instruments)
      reads `instruments, `owned, owned
    {
      && instruments.Keys == m.Keys
      && forall s :: s in instruments ==>
           instruments[s] in owned && instruments[s].symbol == s && instruments[s].View() == m[s]
    }

    ghost predicate Valid()
      reads this, owned
    {
      Matches(After(offers)) && published == Published(offers)
    }

    constructor ()
      ensures Valid() && offers == [] && fresh(owned)
    {
      instruments, offers, published, owned := map[], [], [], {};
    }

    method GetInstrument(symbol: string, ghost m: Instruments) returns (instrument: Instrument)
      requires Matches(m)
      modifies `instruments, `owned
      ensures Matches(m[symbol := Lookup(m, symbol)])
      ensures symbol in instruments && instruments[symbol] == instrument && instrument in owned
      ensures fresh(owned - old(owned))
    {
      if symbol !in instruments {
        instrument := new Instrument(symbol);
        instruments := instruments[symbol := instrument];
        owned := owned + {instrument};
      } else {
        instrument := instruments[symbol];
      }
    }

    method Apply(instrument: Instrument, o: Offer, ghost m: Instruments) returns (accepted: bool)
      requires Matches(m) && o.symbol in instruments && instruments[o.symbol] == instrument
      modifies instrument
      ensures accepted == (o.id >= m[o.symbol].Get(o.feed))
      ensures Matches(m[o.symbol := if accepted then m[o.symbol].Set(o.feed, o.id) else m[o.symbol]])
    {
      if o.feed == TopOfBook {
        accepted := instrument.TobUpdate(o.id);
      } else {
        accepted := instrument.MbpUpdate(o.id);
      }
    }

    /** An update arrives from any of the streams. */
    method OnUpdate(o: Offer) returns (accepted: bool)
      requires Valid()
      modifies this, owned
      ensures Valid() && offers == old(offers) + [o] && fresh(owned - old(owned))
      ensures accepted == Accepts(After(old(offers)), o)
      ensures published == if accepted then old(published) + [o] else old(published)
    {
      PublishedAppend(offers, o);
      UpdateLookup(After(offers), o);
      hide After, Published, Matches, Update, Lookup;
      ghost var m := After(offers);
      var instrument := GetInstrument(o.symbol, m);
      accepted := Apply(instrument, o, m[o.symbol := Lookup(m, o.symbol)]);
      if accepted {
        published := published + [o];
      }
      offers := offers + [o];
    }
  }
}
