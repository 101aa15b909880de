/**
 Concrete playlists for what `Schedule` says can happen.
 */
module ScheduleCases {
  import opened Options
  import opened Ints
  import opened Schedule

  /** An item that starts once. */
  function Once(start: int, durationSec: int): TimeSpec {
    TimeSpec(
      q => q == start,
      now => if start <= now then Some(start) else None,
      now => if now < start then Some(start) else None,
      Some(durationSec))
  }

  lemma {:induction false} OnceIsSound(start: int, durationSec: int)
    requires 0 < durationSec
    ensures Sound(Once(start, durationSec)) && DurationMs(Once(start, durationSec)) == 1000 * durationSec
  {
    var t := Once(start, durationSec);
    forall now ensures IsPrev(t, now) && IsNext(t, now) {}
  }

  /** It happens: an item of ten seconds, asked about at its last millisecond. */
  lemma {:induction false} EndIsNowHappens()
    ensures var specs := [Item(1, "a", Once(0, 10))];
            ValidPlaylist(specs) && ItemAt(specs, 10000).id == 1 && ItemAt(specs, 10000).end == 10000
  {
    OnceIsSound(0, 10);
    var specs := [Item(1, "a", Once(0, 10))];
    assert CurrentTo(specs, 1, 10000) == Consider(CurrentTo(specs, 0, 10000), specs[0], 10000);
    FutureSpec(specs, 1, 10000);
  }

  /** A straddler in a valid playlist, and two iteration orders that report two switch times. */
  lemma {:induction false} SwitchDependsOnOrder()
    ensures var a, b := Item(1, "a", Once(0, 20)), Item(2, "b", Once(10000, 100));
            && ValidPlaylist([a, b]) && SameItems([a, b], [b, a])
            && Current([a, b], 50000).id == Current([b, a], 50000).id == 2
            && Straddles(a, 50000, 10000, 10000)
            && Current([a, b], 50000).switch == 20000 && Current([b, a], 50000).switch == 10000
  {
    OnceIsSound(0, 20);
    OnceIsSound(10000, 100);
    var a, b, now := Item(1, "a", Once(0, 20)), Item(2, "b", Once(10000, 100)), 50000;
    var p, q := [a, b], [b, a];
    assert CurrentTo(p, 2, now) == Consider(Consider(CurrentTo(p, 0, now), a, now), b, now);
    assert CurrentTo(q, 2, now) == Consider(Consider(CurrentTo(q, 0, now), b, now), a, now);
  }

  /** A larger id can name another item once it is cut: no CHECK fires and that item's media is played. */
  lemma {:induction false} WrongItemPlays()
    ensures var specs := [Item(5, "five", Once(0, 1)), Item(0x1_0000_0005, "big", Once(10000, 100))];
            var start := PolicyState(INVALID_ID, 0, None, []);
            var (r, s) := GoToNextSpec(specs, "", start, 19900, false);
            && ValidPlaylist(specs) && Entry(specs, 0, 20000).id == 0x1_0000_0005
            && r.NextIn? && s.currentId == 5 && s.switches == [Switch("five", true)]
  {
    OnceIsSound(0, 1);
    OnceIsSound(10000, 100);
    var specs := [Item(5, "five", Once(0, 1)), Item(0x1_0000_0005, "big", Once(10000, 100))];
    var start := PolicyState(INVALID_ID, 0, None, []);
    assert CurrentTo(specs, 2, 20000)
           == Consider(Consider(CurrentTo(specs, 0, 20000), specs[0], 20000), specs[1], 20000);
    assert specs[0].id == Int32(0x1_0000_0005);
    GoToNextNeverWaits(specs, "", start, 19900, false);
  }
}
