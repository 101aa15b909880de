/**
 Flavours: the upstream sources, one per set of flavour bits, and the clients that read from them. The
 structs of flavours and of clients are numbered, a number standing for an object's identity.
 */
module Flavours {
  import opened Options

  /** One of the 32 bits of a mask. Masks are only met, joined and compared. */
  datatype Bit = Bit(position: nat)

  type Mask = set<Bit>

  datatype Request = Request(id: nat)

  datatype FlavourStruct = FlavourStruct(mask: Mask, media: string, readers: set<nat>)

  /** A client: the flavours it asks for and, by flavour, the upstream media it reads. */
  datatype RequestStruct = RequestStruct(caps: Mask, upstream: map<nat, string>)

  /** A request held by the upstream source: client `r` reads flavour `f`. */
  datatype Pull = Pull(r: nat, f: nat)

  datatype Registry = Registry(flavours: map<Mask, nat>, fss: seq<FlavourStruct>,
                               reqs: map<Request, nat>, rss: seq<RequestStruct>, pulls: set<Pull>)

  datatype Spec = Spec(mask: Mask, media: string)

  /** The bitwise conjunction of the masks is not zero. */
  predicate Meet(a: Mask, b: Mask) {
    !(a !! b)
  }

  // ---------- the registry ----------

  predicate Known(s: Registry, r: nat, f: nat) {
    r < |s.rss| && f < |s.fss|
  }

  predicate Reads(s: Registry, r: nat, f: nat) {
    r < |s.rss| && f in s.rss[r].upstream
  }

  /** Client, flavour and upstream source agree on who reads what. */
  predicate Mirrors(s: Registry, r: nat, f: nat) {
    && (Reads(s, r, f) ==> Known(s, r, f) && Meet(s.fss[f].mask, s.rss[r].caps))
    && (Reads(s, r, f) <==> f < |s.fss| && r in s.fss[f].readers)
    && (Reads(s, r, f) <==> Pull(r, f) in s.pulls)
  }

  predicate Registered(s: Registry, f: nat) {
    f < |s.fss| && s.fss[f].mask in s.flavours && s.flavours[s.fss[f].mask] == f
  }

  ghost predicate Tables(s: Registry) {
    && (forall m :: m in s.flavours ==> s.flavours[m] < |s.fss| && s.fss[s.flavours[m]].mask == m)
    && (forall q :: q in s.reqs ==> s.reqs[q] < |s.rss|)
    && (forall m, n :: m in s.flavours && n in s.flavours && m != n ==> m !! n)
  }

  ghost predicate Mirrored(s: Registry) {
    forall r: nat, f: nat :: Mirrors(s, r, f)
  }

  /** Every flavour that is read is registered, but for `except` while it is being removed. */
  ghost predicate ReadsRegistered(s: Registry, except: int) {
    forall r: nat, f: nat :: Reads(s, r, f) && f != except ==> Registered(s, f)
  }

  ghost predicate Inv(s: Registry) {
    Tables(s) && Mirrored(s) && ReadsRegistered(s, -1)
  }

  /** Each bit a client asked for comes from one upstream source at most. */
  lemma {:induction false} OneSourcePerBit(s: Registry, r: nat, f: nat, g: nat, bit: Bit)
    requires Inv(s) && Reads(s, r, f) && Reads(s, r, g)
    requires bit in s.fss[f].mask && bit in s.fss[g].mask
    ensures f == g
  {
    assert Registered(s, f) && Registered(s, g);
  }

  function Linked(s: Registry, r: nat, f: nat, media: string): Registry
    requires Known(s, r, f)
  {
    var rs, fs := s.rss[r], s.fss[f];
    s.(rss := s.rss[r := rs.(upstream := rs.upstream[f := media])],
       fss := s.fss[f := fs.(readers := fs.readers + {r})],
       pulls := s.pulls + {Pull(r, f)})
  }

  function Unlinked(s: Registry, r: nat, f: nat): Registry
    requires Known(s, r, f)
  {
    var rs, fs := s.rss[r], s.fss[f];
    s.(rss := s.rss[r := rs.(upstream := rs.upstream - {f})],
       fss := s.fss[f := fs.(readers := fs.readers - {r})],
       pulls := s.pulls - {Pull(r, f)})
  }

  lemma {:induction false} LinkKeeps(s: Registry, r: nat, f: nat, media: string)
    requires Inv(s) && Known(s, r, f) && Registered(s, f) && Meet(s.fss[f].mask, s.rss[r].caps)
    ensures Inv(Linked(s, r, f, media))
    ensures forall q: nat, g: nat :: Reads(Linked(s, r, f, media), q, g) <==> Reads(s, q, g) || (q == r && g == f)
  {
    var t := Linked(s, r, f, media);
    forall q: nat, g: nat ensures Mirrors(t, q, g) {
      assert Mirrors(s, q, g);
    }
    forall q: nat, g: nat | Reads(t, q, g) ensures Registered(t, g) {
      assert (q == r && g == f) || Reads(s, q, g);
    }
  }

  lemma {:induction false} UnlinkKeeps(s: Registry, r: nat, f: nat, except: int)
    requires Tables(s) && Mirrored(s) && ReadsRegistered(s, except) && Known(s, r, f)
    ensures var t := Unlinked(s, r, f); Tables(t) && Mirrored(t) && ReadsRegistered(t, except)
    ensures forall q: nat, g: nat :: Reads(Unlinked(s, r, f), q, g) <==> Reads(s, q, g) && !(q == r && g == f)
  {
    var t := Unlinked(s, r, f);
    forall q: nat, g: nat ensures Mirrors(t, q, g) {
      assert Mirrors(s, q, g);
    }
    forall q: nat, g: nat | Reads(t, q, g) && g != except ensures Registered(t, g) {
      assert Reads(s, q, g);
    }
  }

  // ---------- the test of a new list of flavours ----------

  /** The bits of a list of flavours. */
  function AllBits(specs: seq<Spec>): Mask {
    if specs == [] then {} else AllBits(specs[..|specs| - 1]) + specs[|specs| - 1].mask
  }

  /** No flavour in the list meets the bits of those before it. */
  predicate PassesTest(specs: seq<Spec>) {
    specs == [] || (PassesTest(specs[..|specs| - 1]) && AllBits(specs[..|specs| - 1]) !! specs[|specs| - 1].mask)
  }

  ghost predicate PairwiseDisjoint(specs: seq<Spec>) {
    forall i, j :: 0 <= i < j < |specs| ==> specs[i].mask !! specs[j].mask
  }

  lemma {:induction false} AllBitsMeets(specs: seq<Spec>, probe: Mask)
    ensures AllBits(specs) !! probe <==> forall i :: 0 <= i < |specs| ==> specs[i].mask !! probe
  {
    if specs != [] {
      AllBitsMeets(specs[..|specs| - 1], probe);
    }
  }

  /** The test of the accumulated bits passes exactly for lists that are disjoint pair by pair. */
  lemma {:induction false} TestIsExact(specs: seq<Spec>)
    ensures PassesTest(specs) <==> PairwiseDisjoint(specs)
  {
    if specs != [] {
      var init, last := specs[..|specs| - 1], specs[|specs| - 1];
      TestIsExact(init);
      AllBitsMeets(init, last.mask);
    }
  }

  // ---------- what the steps change ----------

  ghost predicate ServedBefore(bit: Bit, s: Registry, caps: Mask, media: string, accepts: string -> bool,
                               left: set<Mask>) {
    exists f: nat :: Takes(s, f, caps, media, accepts) && bit in s.fss[f].mask && s.fss[f].mask !in left
  }

  /** Everything but who reads what; nobody reads anything else from a flavour than before. */
  predicate SameShape(s: Registry, t: Registry) {
    && |t.fss| == |s.fss| && |t.rss| == |s.rss|
    && (forall f :: 0 <= f < |s.fss| ==> t.fss[f].mask == s.fss[f].mask && t.fss[f].media == s.fss[f].media)
    && (forall r :: 0 <= r < |s.rss| ==> t.rss[r].caps == s.rss[r].caps && StillReads(s.rss[r], t.rss[r]))
  }

  predicate StillReads(before: RequestStruct, after: RequestStruct) {
    forall f :: f in after.upstream ==> f in before.upstream && after.upstream[f] == before.upstream[f]
  }

  lemma {:induction false} UnlinkKeepsShape(s: Registry, t: Registry, r: nat, f: nat)
    requires SameShape(s, t) && Known(t, r, f)
    ensures SameShape(s, Unlinked(t, r, f))
  {
    assert StillReads(s.rss[r], t.rss[r]);
  }

  ghost predicate OthersRead(s: Registry, t: Registry, r: nat) {
    forall q: nat, g: nat :: q != r ==> (Reads(t, q, g) <==> Reads(s, q, g))
  }

  ghost predicate ReadsWithoutClient(s: Registry, t: Registry, r: nat) {
    forall q: nat, g: nat :: Reads(t, q, g) <==> Reads(s, q, g) && q != r
  }

  ghost predicate ReadsWithoutFlavour(s: Registry, t: Registry, f: nat) {
    forall q: nat, g: nat :: Reads(t, q, g) <==> Reads(s, q, g) && g != f
  }

  /** Flavour `f` suits the client and its source takes the request. */
  predicate Takes(s: Registry, f: nat, caps: Mask, media: string, accepts: string -> bool) {
    Registered(s, f) && Meet(s.fss[f].mask, caps) && accepts(s.fss[f].media + "/" + media)
  }

  /** Client `r` reads the media below that of each of its flavours. */
  ghost predicate ReadsBelow(t: Registry, r: nat, media: string)
    requires r < |t.rss|
  {
    forall f: nat :: Reads(t, r, f) && f < |t.fss| ==> t.rss[r].upstream[f] == t.fss[f].media + "/" + media
  }

  /** The bits asked for that some flavour serves. */
  ghost predicate AreServed(served: Mask, s: Registry, caps: Mask, media: string, accepts: string -> bool) {
    forall bit :: bit in served <==> bit in caps && IsServed(bit, s, caps, media, accepts)
  }

  ghost predicate IsServed(bit: Bit, s: Registry, caps: Mask, media: string, accepts: string -> bool) {
    exists f: nat :: Takes(s, f, caps, media, accepts) && bit in s.fss[f].mask
  }

  lemma {:induction false} NewFlavourKeeps(s: Registry, mask: Mask, media: string)
    requires Inv(s) && forall m :: m in s.flavours ==> m !! mask
    ensures Inv(s.(flavours := s.flavours[mask := |s.fss|], fss := s.fss + [FlavourStruct(mask, media, {})]))
  {
    var t := s.(flavours := s.flavours[mask := |s.fss|], fss := s.fss + [FlavourStruct(mask, media, {})]);
    forall r: nat, f: nat ensures Mirrors(t, r, f) {
      assert Mirrors(s, r, f);
    }
    forall r: nat, f: nat | Reads(t, r, f) ensures Registered(t, f) {
      assert Reads(s, r, f) && Mirrors(s, r, f) && Registered(s, f);
    }
  }

  lemma {:induction false} EraseKeeps(s: Registry, mask: Mask)
    requires Inv(s) && mask in s.flavours
    ensures var t := s.(flavours := s.flavours - {mask});
            Tables(t) && Mirrored(t) && ReadsRegistered(t, s.flavours[mask])
  {
    var t := s.(flavours := s.flavours - {mask});
    forall r: nat, f: nat ensures Mirrors(t, r, f) {
      assert Mirrors(s, r, f);
    }
    forall r: nat, f: nat | Reads(t, r, f) && f != s.flavours[mask] ensures Registered(t, f) {
      assert Reads(s, r, f) && Registered(s, f);
    }
  }

  lemma {:induction false} NewClientKeeps(s: Registry, caps: Mask)
    requires Inv(s)
    ensures var t := s.(rss := s.rss + [RequestStruct(caps, map[])]);
            Inv(t) && forall r: nat, f: nat :: Reads(t, r, f) <==> Reads(s, r, f)
  {
    var t := s.(rss := s.rss + [RequestStruct(caps, map[])]);
    forall r: nat, f: nat ensures Mirrors(t, r, f) && (Reads(t, r, f) <==> Reads(s, r, f)) {
      assert Mirrors(s, r, f);
    }
    forall r: nat, f: nat | Reads(t, r, f) ensures Registered(t, f) {
      assert Reads(s, r, f);
    }
  }

  lemma {:induction false} NarrowKeeps(s: Registry, r: nat, served: Mask)
    requires Inv(s) && r < |s.rss| && forall f: nat :: Reads(s, r, f) ==> Meet(s.fss[f].mask, served)
    ensures var t := s.(rss := s.rss[r := s.rss[r].(caps := served)]);
            Inv(t) && forall q: nat, f: nat :: Reads(t, q, f) <==> Reads(s, q, f)
  {
    var t := s.(rss := s.rss[r := s.rss[r].(caps := served)]);
    forall q: nat, f: nat ensures Mirrors(t, q, f) && (Reads(t, q, f) <==> Reads(s, q, f)) {
      assert Mirrors(s, q, f);
    }
    forall q: nat, f: nat | Reads(t, q, f) ensures Registered(t, f) {
      assert Reads(s, q, f);
    }
  }

  /** The media of the last flavour in the list with this mask. */
  function MediaFor(specs: seq<Spec>, m: Mask): Option<string> {
    if specs == [] then None
    else
      var last := specs[|specs| - 1];
      if last.mask == m then Some(last.media) else MediaFor(specs[..|specs| - 1], m)
  }

  /** A mask has the media of the last flavour that is listed with it. */
  lemma {:induction false} MediaForIsLast(specs: seq<Spec>, m: Mask, i: nat)
    requires i < |specs| && specs[i].mask == m && forall j :: i < j < |specs| ==> specs[j].mask != m
    ensures MediaFor(specs, m) == Some(specs[i].media)
  {
    if i < |specs| - 1 { MediaForIsLast(specs[..|specs| - 1], m, i); }
  }

  lemma {:induction false} NotListed(specs: seq<Spec>, m: Mask)
    requires forall i :: 0 <= i < |specs| ==> specs[i].mask != m
    ensures MediaFor(specs, m) == None
  {
    if specs != [] { NotListed(specs[..|specs| - 1], m); }
  }

  /** The registered flavours are those of the list, and nobody reads. */
  ghost predicate Replaced(s: Registry, specs: seq<Spec>) {
    && (forall m :: m in s.flavours <==> MediaFor(specs, m).Some?)
    && (forall m :: m in s.flavours ==>
          s.flavours[m] < |s.fss| && MediaFor(specs, m) == Some(s.fss[s.flavours[m]].media))
    && (forall r: nat, f: nat :: !Reads(s, r, f))
  }

  lemma {:induction false} ReplacedStep(s: Registry, t: Registry, specs: seq<Spec>, i: nat)
    requires i < |specs| && Replaced(s, specs[..i])
    requires t == s.(flavours := s.flavours[specs[i].mask := |s.fss|],
                     fss := s.fss + [FlavourStruct(specs[i].mask, specs[i].media, {})])
    ensures Replaced(t, specs[..i + 1])
  {
    var longer := specs[..i + 1];
    assert longer[..i] == specs[..i] && longer[i] == specs[i];
    forall m: Mask
      ensures MediaFor(longer, m) == if m == specs[i].mask then Some(specs[i].media) else MediaFor(specs[..i], m)
    {
    }
    forall r: nat, f: nat ensures !Reads(t, r, f) {
      assert !Reads(s, r, f);
    }
  }

  /** In a list of disjoint flavours, each with a bit, every flavour has its own media. */
  lemma {:induction false} MediaOfEach(specs: seq<Spec>, i: nat)
    requires PairwiseDisjoint(specs) && i < |specs| && specs[i].mask != {}
    ensures MediaFor(specs, specs[i].mask) == Some(specs[i].media)
  {
    if i < |specs| - 1 {
      assert specs[i].mask !! specs[|specs| - 1].mask;
      MediaOfEach(specs[..|specs| - 1], i);
    }
  }

  lemma {:induction false} ListedIsDisjoint(specs: seq<Spec>, n: nat, i: nat, m: Mask)
    requires PairwiseDisjoint(specs) && n <= i < |specs| && MediaFor(specs[..n], m).Some?
    ensures m !! specs[i].mask
  {
    if specs[n - 1].mask != m {
      assert specs[..n][..n - 1] == specs[..n - 1];
      ListedIsDisjoint(specs, n - 1, i, m);
    }
  }

  lemma {:induction false} FailsLater(specs: seq<Spec>, i: nat)
    requires i <= |specs| && !PassesTest(specs[..i])
    ensures !PassesTest(specs)
  {
    if i == |specs| {
      assert specs[..i] == specs;
    } else {
      assert specs[..|specs| - 1][..i] == specs[..i];
      FailsLater(specs[..|specs| - 1], i);
    }
  }

  lemma {:induction false} DropRequestKeeps(s: Registry, q: Request)
    requires Inv(s)
    ensures Inv(s.(reqs := s.reqs - {q}))
  {
    var t := s.(reqs := s.reqs - {q});
    forall x: nat, f: nat ensures Mirrors(t, x, f) {
      assert Mirrors(s, x, f);
    }
    forall x: nat, f: nat | Reads(t, x, f) ensures Registered(t, f) {
      assert Reads(s, x, f);
    }
  }

  // ---------- the loops ----------

  /** Flavour `f` of `s` is being removed: the clients in `left` still read from it and those in `told` did. */
  ghost predicate Removing(s: Registry, t: Registry, f: nat, left: set<nat>, told: seq<nat>) {
    && Tables(t) && Mirrored(t) && ReadsRegistered(t, f) && SameShape(s, t)
    && (forall q: nat, g: nat :: Reads(t, q, g) <==> Reads(s, q, g) && (g != f || q in left))
    && (forall r: nat :: Reads(s, r, f) <==> r in left || r in told)
    && (forall r: nat :: r in left ==> r !in told)
    && (forall i, j :: 0 <= i < j < |told| ==> told[i] != told[j])
  }

  lemma {:induction false} RemovingStarts(s: Registry, mask: Mask)
    requires Inv(s) && mask in s.flavours
    ensures Removing(s, s.(flavours := s.flavours - {mask}), s.flavours[mask], s.fss[s.flavours[mask]].readers, [])
  {
    var f := s.flavours[mask];
    EraseKeeps(s, mask);
    forall r: nat ensures Reads(s, r, f) <==> r in s.fss[f].readers {
      assert Mirrors(s, r, f);
    }
  }

  lemma {:induction false} RemovingStep(s: Registry, t: Registry, f: nat, left: set<nat>, told: seq<nat>, r: nat)
    requires Removing(s, t, f, left, told) && r in left
    ensures Reads(t, r, f) && Known(t, r, f) && Removing(s, Unlinked(t, r, f), f, left - {r}, told + [r])
  {
    assert Mirrors(t, r, f) && Reads(s, r, f);
    UnlinkKeeps(t, r, f, f);
    UnlinkKeepsShape(s, t, r, f);
  }

  /** The new client `r` reads from the flavours that take it and are not in `left`. */
  ghost predicate Serving(s: Registry, t: Registry, r: nat, caps: Mask, media: string, accepts: string -> bool,
                          left: set<Mask>) {
    && Inv(t) && r == |s.rss| && |t.rss| == r + 1 && t.rss[r].caps == caps && t.flavours == s.flavours
    && t.reqs == s.reqs && t.rss[..r] == s.rss && ReadsBelow(t, r, media)
    && |t.fss| == |s.fss|
    && (forall f :: 0 <= f < |s.fss| ==> t.fss[f].mask == s.fss[f].mask && t.fss[f].media == s.fss[f].media)
    && OthersRead(s, t, r)
    && (forall f: nat :: Reads(t, r, f) <==> Takes(s, f, caps, media, accepts) && s.fss[f].mask !in left)
  }

  lemma {:induction false} ServingStarts(s: Registry, caps: Mask, media: string, accepts: string -> bool)
    requires Inv(s)
    ensures Serving(s, s.(rss := s.rss + [RequestStruct(caps, map[])]), |s.rss|, caps, media, accepts, s.flavours.Keys)
  {
    NewClientKeeps(s, caps);
  }

  lemma {:induction false} ServingStep(s: Registry, t: Registry, r: nat, caps: Mask, media: string,
                                       accepts: string -> bool, left: set<Mask>, m: Mask)
    requires Inv(s) && Serving(s, t, r, caps, media, accepts, left) && left <= s.flavours.Keys && m in left
    ensures var f := s.flavours[m];
            && Known(t, r, f) && Registered(t, f)
            && if Takes(s, f, caps, media, accepts)
               then Serving(s, Linked(t, r, f, s.fss[f].media + "/" + media), r, caps, media, accepts, left - {m})
               else Serving(s, t, r, caps, media, accepts, left - {m})
  {
    var f := s.flavours[m];
    assert forall g: nat :: Registered(s, g) && s.fss[g].mask == m ==> g == f;
    if Takes(s, f, caps, media, accepts) {
      LinkKeeps(t, r, f, s.fss[f].media + "/" + media);
    }
  }

  lemma {:induction false} ServedStep(s: Registry, caps: Mask, media: string, accepts: string -> bool,
                                      left: set<Mask>, m: Mask, bit: Bit)
    requires Inv(s) && left <= s.flavours.Keys && m in left
    ensures ServedBefore(bit, s, caps, media, accepts, left - {m})
            <==> || ServedBefore(bit, s, caps, media, accepts, left)
                 || (bit in m && Takes(s, s.flavours[m], caps, media, accepts))
  {
    var f := s.flavours[m];
    assert forall g: nat :: Registered(s, g) && s.fss[g].mask == m ==> g == f;
    assert s.fss[f].mask == m;
    if ServedBefore(bit, s, caps, media, accepts, left - {m}) {
      var g: nat :| Takes(s, g, caps, media, accepts) && bit in s.fss[g].mask && s.fss[g].mask !in left - {m};
    }
    if ServedBefore(bit, s, caps, media, accepts, left) {
      var g: nat :| Takes(s, g, caps, media, accepts) && bit in s.fss[g].mask && s.fss[g].mask !in left;
      assert s.fss[g].mask !in left - {m};
    }
  }

  /** The bits served by the flavours that are not in `left`. */
  ghost predicate AreServedBefore(served: Mask, s: Registry, caps: Mask, media: string, accepts: string -> bool,
                                  left: set<Mask>) {
    forall bit :: bit in served <==> bit in caps && ServedBefore(bit, s, caps, media, accepts, left)
  }

  lemma {:induction false} AllAreServed(served: Mask, s: Registry, caps: Mask, media: string, accepts: string -> bool)
    requires AreServedBefore(served, s, caps, media, accepts, {})
    ensures AreServed(served, s, caps, media, accepts)
  {
    forall bit ensures bit in served <==> bit in caps && IsServed(bit, s, caps, media, accepts) {
      assert ServedBefore(bit, s, caps, media, accepts, {}) <==> IsServed(bit, s, caps, media, accepts);
    }
  }

  ghost predicate SomeTakes(s: Registry, caps: Mask, media: string, accepts: string -> bool) {
    exists f: nat :: Takes(s, f, caps, media, accepts)
  }

  /** The bits served so far meet every flavour that is read. */
  lemma {:induction false} ServingEnds(s: Registry, t: Registry, r: nat, caps: Mask, media: string,
                                       accepts: string -> bool, served: Mask)
    requires Inv(s) && Serving(s, t, r, caps, media, accepts, {}) && AreServed(served, s, caps, media, accepts)
    ensures t.rss[r].upstream == map[] <==> !SomeTakes(s, caps, media, accepts)
    ensures var u := t.(rss := t.rss[r := t.rss[r].(caps := served)]);
            Inv(u) && forall q: nat, f: nat :: Reads(u, q, f) <==> Reads(t, q, f)
  {
    forall f: nat | Reads(t, r, f) ensures Meet(t.fss[f].mask, served) {
      assert Takes(s, f, caps, media, accepts);
      var bit :| bit in s.fss[f].mask && bit in caps;
      assert IsServed(bit, s, caps, media, accepts);
    }
    NarrowKeeps(t, r, served);
    if SomeTakes(s, caps, media, accepts) {
      var f: nat :| Takes(s, f, caps, media, accepts);
      assert Reads(t, r, f);
    } else {
      forall f: nat ensures f !in t.rss[r].upstream.Keys {
        assert Reads(t, r, f) <==> Takes(s, f, caps, media, accepts);
      }
    }
  }

  /** What adding a request does. On success the new client reads from every flavour that suits it and whose
      source takes the request, and its mask is cut to the bits that are served. */
  ghost predicate AddedRequest(s: Registry, t: Registry, q: Request, caps: Mask, media: string,
                               accepts: string -> bool, ok: bool) {
    var r := |s.rss|;
    && t.flavours == s.flavours && |t.rss| == r + 1 && t.rss[..r] == s.rss && |t.fss| == |s.fss|
    && (forall f :: 0 <= f < |s.fss| ==> t.fss[f].mask == s.fss[f].mask && t.fss[f].media == s.fss[f].media)
    && OthersRead(s, t, r) && ReadsBelow(t, r, media)
    && (forall f: nat :: Reads(t, r, f) <==> Takes(s, f, caps, media, accepts))
    && (ok <==> SomeTakes(s, caps, media, accepts))
    && t.reqs == (if ok then s.reqs[q := r] else s.reqs)
    && (ok ==> AreServed(t.rss[r].caps, s, caps, media, accepts))
  }

  lemma {:induction false} AddingEnds(s: Registry, t: Registry, r: nat, q: Request, caps: Mask, media: string,
                                      accepts: string -> bool, served: Mask)
    requires Inv(s) && Serving(s, t, r, caps, media, accepts, {}) && AreServed(served, s, caps, media, accepts)
    ensures t.rss[r].upstream == map[] ==> Inv(t) && AddedRequest(s, t, q, caps, media, accepts, false)
    ensures var u := t.(rss := t.rss[r := t.rss[r].(caps := served)], reqs := t.reqs[q := r]);
            t.rss[r].upstream != map[] ==> Inv(u) && AddedRequest(s, u, q, caps, media, accepts, true)
  {
    ServingEnds(s, t, r, caps, media, accepts, served);
    var v := t.(rss := t.rss[r := t.rss[r].(caps := served)]);
    var u := v.(reqs := t.reqs[q := r]);
    RequestKeeps(v, q, r);
    forall x: nat, f: nat ensures Reads(u, x, f) <==> Reads(t, x, f) {
      assert Reads(v, x, f) <==> Reads(t, x, f);
    }
  }

  lemma {:induction false} RequestKeeps(s: Registry, q: Request, r: nat)
    requires Inv(s) && r < |s.rss|
    ensures Inv(s.(reqs := s.reqs[q := r]))
  {
    var t := s.(reqs := s.reqs[q := r]);
    forall x: nat, f: nat ensures Mirrors(t, x, f) {
      assert Mirrors(s, x, f);
    }
    forall x: nat, f: nat | Reads(t, x, f) ensures Registered(t, f) {
      assert Reads(s, x, f);
    }
  }

  class FlavouringElement {
    var flavours: map<Mask, nat>
    var fss: seq<FlavourStruct>
    var reqs: map<Request, nat>
    var rss: seq<RequestStruct>
    var pulls: set<Pull>

    ghost function Now(): Registry
      reads this
    {
      Registry(flavours, fss, reqs, rss, pulls)
    }

    ghost predicate Valid()
      reads this
    {
      Inv(Now())
    }

    /** The configured flavours; overlapping ones end the process. */
    constructor (specs: seq<Spec>)
      requires PairwiseDisjoint(specs)
      ensures Valid() && reqs == map[] && Replaced(Now(), specs)
    {
      flavours, fss, reqs, rss, pulls := map[], [], map[], [], {};
      new;
      for i := 0 to |specs|
        invariant Valid() && reqs == map[] && Replaced(Now(), specs[..i])
      {
        AddListed(specs, i);
      }
      assert specs[..|specs|] == specs;
    }

    /** Adds the next flavour of a list: its mask overlaps no earlier one. */
    method AddListed(specs: seq<Spec>, i: nat)
      requires Valid() && PairwiseDisjoint(specs) && i < |specs| && Replaced(Now(), specs[..i])
      modifies this
      ensures Valid() && reqs == old(reqs) && Replaced(Now(), specs[..i + 1])
    {
      forall m | m in flavours ensures m !! specs[i].mask {
        ListedIsDisjoint(specs, i, i, m);
      }
      ghost var before := Now();
      var added := AddFlav(specs[i].mask, specs[i].media);
      assert added;
      ReplacedStep(before, Now(), specs, i);
    }

    /** Registers a client with the flavour's upstream source. */
    method Register(r: nat, f: nat, media: string, accepts: string -> bool) returns (ok: bool)
      requires Valid() && Known(Now(), r, f) && Registered(Now(), f) && Meet(fss[f].mask, rss[r].caps)
      modifies this
      ensures Valid() && ok == accepts(old(fss[f].media) + "/" + media)
      ensures Now() == if ok then Linked(old(Now()), r, f, old(fss[f].media) + "/" + media) else old(Now())
    {
      var up := fss[f].media + "/" + media;
      ok := accepts(up);
      if ok {
        LinkKeeps(Now(), r, f, up);
        var rs, fs := rss[r], fss[f];
        pulls := pulls + {Pull(r, f)};
        rss := rss[r := rs.(upstream := rs.upstream[f := up])];
        fss := fss[f := fs.(readers := fs.readers + {r})];
      }
    }

    method Unregister(r: nat, f: nat)
      requires Known(Now(), r, f)
      modifies this
      ensures Now() == if Reads(old(Now()), r, f) then Unlinked(old(Now()), r, f) else old(Now())
    {
      var rs, fs := rss[r], fss[f];
      if f !in rs.upstream {
        return;
      }
      rss := rss[r := rs.(upstream := rs.upstream - {f})];
      pulls := pulls - {Pull(r, f)};
      fss := fss[f := fs.(readers := fs.readers - {r})];
    }

    /** The client reads nothing any more. */
    method UnregisterAll(r: nat)
      requires Valid() && r < |rss|
      modifies this
      ensures Valid() && SameShape(old(Now()), Now()) && flavours == old(flavours) && reqs == old(reqs)
      ensures ReadsWithoutClient(old(Now()), Now(), r)
    {
      var left := rss[r].upstream.Keys;
      while left != {}
        invariant Valid() && SameShape(old(Now()), Now()) && flavours == old(flavours) && reqs == old(reqs)
        invariant forall f :: f in left <==> f in rss[r].upstream
        invariant forall q: nat, g: nat :: Reads(Now(), q, g) <==> Reads(old(Now()), q, g) && (q != r || g in left)
        decreases |left|
      {
        assert (forall f :: f !in left) ==> left == {};
        var f :| f in left;
        assert Mirrors(Now(), r, f);
        UnlinkKeeps(Now(), r, f, -1);
        UnlinkKeepsShape(old(Now()), Now(), r, f);
        Unregister(r, f);
        left := left - {f};
      }
    }

    method AddFlav(mask: Mask, media: string) returns (ok: bool)
      requires Valid()
      modifies this
      ensures Valid()
      ensures ok <==> forall m :: m in old(flavours) ==> m !! mask
      ensures Now() == if ok then old(Now()).(flavours := old(flavours)[mask := |old(fss)|],
                                              fss := old(fss) + [FlavourStruct(mask, media, {})])
                       else old(Now())
    {
      var left := flavours.Keys;
      while left != {}
        invariant left <= flavours.Keys
        invariant forall m :: m in flavours ==> m in left || m !! mask
        decreases |left|
      {
        var m :| m in left;
        if Meet(m, mask) {
          return false;
        }
        left := left - {m};
      }
      NewFlavourKeeps(Now(), mask, media);
      flavours := flavours[mask := |fss|];
      fss := fss + [FlavourStruct(mask, media, {})];
      return true;
    }

    /** `told` lists the clients sent the end of the flavour's stream. */
    method DelFlav(mask: Mask) returns (ok: bool, told: seq<nat>)
      requires Valid()
      modifies this
      ensures Valid() && ok == (mask in old(flavours))
      ensures !ok ==> told == [] && Now() == old(Now())
      ensures ok ==> && flavours == old(flavours) - {mask} && reqs == old(reqs) && SameShape(old(Now()), Now())
                     && ReadsWithoutFlavour(old(Now()), Now(), old(flavours)[mask])
                     && (forall i, j :: 0 <= i < j < |told| ==> told[i] != told[j])
                     && (forall r: nat :: r in told <==> Reads(old(Now()), r, old(flavours)[mask]))
    {
      told := [];
      if mask !in flavours {
        return false, told;
      }
      RemovingStarts(Now(), mask);
      var f := flavours[mask];
      flavours := flavours - {mask};
      var left := fss[f].readers;
      while left != {}
        invariant f < |fss| && flavours == old(flavours) - {mask} && reqs == old(reqs)
        invariant Removing(old(Now()), Now(), f, left, told)
        decreases |left|
      {
        assert (forall r :: r !in left) ==> left == {};
        var r :| r in left;
        RemovingStep(old(Now()), Now(), f, left, told, r);
        Unregister(r, f);
        told := told + [r];
        left := left - {r};
      }
      ok := true;
    }

    /** Registers client `r` with every flavour that suits it and whose source takes the request. */
    method RegisterAll(ghost s: Registry, r: nat, caps: Mask, media: string, accepts: string -> bool)
      returns (served: Mask)
      requires Inv(s) && Serving(s, Now(), r, caps, media, accepts, flavours.Keys)
      modifies this
      ensures Serving(s, Now(), r, caps, media, accepts, {}) && AreServed(served, s, caps, media, accepts)
    {
      served := {};
      var left := flavours.Keys;
      while left != {}
        invariant left <= s.flavours.Keys && Serving(s, Now(), r, caps, media, accepts, left)
        invariant AreServedBefore(served, s, caps, media, accepts, left)
        decreases |left|
      {
        var m :| m in left;
        var took := RegisterOne(s, r, m, caps, media, accepts, left);
        if took {
          served := served + m * caps;
        }
        left := left - {m};
      }
      AllAreServed(served, s, caps, media, accepts);
    }

    /** Registers client `r` with one flavour if that suits it. */
    method RegisterOne(ghost s: Registry, r: nat, m: Mask, caps: Mask, media: string, accepts: string -> bool,
                       ghost left: set<Mask>)
      returns (took: bool)
      requires Inv(s) && Serving(s, Now(), r, caps, media, accepts, left) && left <= s.flavours.Keys && m in left
      modifies this
      ensures Serving(s, Now(), r, caps, media, accepts, left - {m})
      ensures took == Takes(s, s.flavours[m], caps, media, accepts)
    {
      var f := flavours[m];
      ServingStep(s, Now(), r, caps, media, accepts, left, m);
      took := false;
      if Meet(fss[f].mask, caps) {
        took := Register(r, f, media, accepts);
      }
    }

    method AddRequest(q: Request, caps: Mask, media: string, accepts: string -> bool) returns (ok: bool)
      requires Valid()
      modifies this
      ensures Valid() && AddedRequest(old(Now()), Now(), q, caps, media, accepts, ok)
    {
      ghost var s := Now();
      var r := |rss|;
      ServingStarts(s, caps, media, accepts);
      rss := rss + [RequestStruct(caps, map[])];
      var served := RegisterAll(s, r, caps, media, accepts);
      AddingEnds(s, Now(), r, q, caps, media, accepts, served);
      if rss[r].upstream == map[] {
        return false;
      }
      rss := rss[r := rss[r].(caps := served)];
      reqs := reqs[q := r];
      return true;
    }

    method RemoveRequest(q: Request)
      requires Valid()
      modifies this
      ensures Valid() && flavours == old(flavours) && SameShape(old(Now()), Now())
      ensures q !in old(reqs) ==> Now() == old(Now())
      ensures q in old(reqs) ==> reqs == old(reqs) - {q} && ReadsWithoutClient(old(Now()), Now(), old(reqs)[q])
    {
      if q !in reqs {
        return;
      }
      var r := reqs[q];
      DropRequestKeeps(Now(), q);
      reqs := reqs - {q};
      UnregisterAll(r);
    }

    /** A list that fails the test changes nothing; otherwise its flavours replace all others and nobody reads. */
    method SetFlavours(specs: seq<Spec>) returns (ok: bool)
      requires Valid()
      modifies this
      ensures Valid() && (ok <==> PairwiseDisjoint(specs)) && reqs == old(reqs)
      ensures !ok ==> Now() == old(Now())
      ensures ok ==> Replaced(Now(), specs)
    {
      TestIsExact(specs);
      var all: Mask := {};
      for i := 0 to |specs|
        invariant all == AllBits(specs[..i]) && PassesTest(specs[..i])
      {
        assert specs[..i + 1][..i] == specs[..i];
        if Meet(all, specs[i].mask) {
          FailsLater(specs, i + 1);
          return false;
        }
        all := all + specs[i].mask;
      }
      assert specs[..|specs|] == specs;
      DeleteAll();
      for i := 0 to |specs|
        invariant Valid() && reqs == old(reqs) && Replaced(Now(), specs[..i])
      {
        AddListed(specs, i);
      }
      assert specs[..|specs|] == specs;
      ok := true;
    }

    method DeleteAll()
      requires Valid()
      modifies this
      ensures Valid() && reqs == old(reqs) && Replaced(Now(), [])
    {
      while flavours != map[]
        invariant Valid() && reqs == old(reqs)
        decreases |flavours|
      {
        var m :| m in flavours;
        var deleted, _ := DelFlav(m);
        assert deleted;
      }
      forall r: nat, f: nat ensures !Reads(Now(), r, f) {
        assert Reads(Now(), r, f) ==> Registered(Now(), f);
      }
    }
  }
}
