/** A clip window that grows: the ratio cannot know what a smaller window has already pruned. */
module WindowChanges {
  import opened Bytes
  import opened Effects
  import opened Settings
  import opened Window
  import opened Hysteresis
  import opened MeterRuns

  const NARROW := Settings(Finite(50.0), Finite(40.0), 5000, 100, Finite(100.0), 0, true, 0, Some([]))
  const WIDE := NARROW.(window := 1000)

  // Ten milliseconds at the limit, two hundred more, and then the window is widened.
  const GROWN: seq<Moment> := [Moment(NARROW, 0.0, 1.0, true), Moment(NARROW, 10.0, 0.0, true),
                               Moment(NARROW, 200.0, 0.0, true), Moment(WIDE, 210.0, 0.0, true)]

  lemma Prefixes()
    ensures AllNormal(GROWN) && AllNormal(GROWN[..3]) && AllNormal(GROWN[..2]) && AllNormal(GROWN[..1])
    ensures Front(GROWN) == GROWN[..3] && Front(GROWN[..3]) == GROWN[..2] && Front(GROWN[..2]) == GROWN[..1]
      && Front(GROWN[..1]) == []
    ensures Last(GROWN) == GROWN[3] && Last(GROWN[..3]) == GROWN[2] && Last(GROWN[..2]) == GROWN[1]
      && Last(GROWN[..1]) == GROWN[0]
  {
  }

  const FIRST := ClipInterval(0.0, 10.0, true)
  const SECOND := ClipInterval(10.0, 200.0, false)

  lemma AfterOne()
    requires AllNormal(GROWN[..1])
    ensures MeterAt(GROWN[..1]) == Meter([], 0.0, true, false, 0.0, 0.0, true, false, 0.0)
    ensures TraceAt(GROWN[..1]) == Trace([], [], Sample(0.0, true, false))
  {
    Prefixes();
    NothingPruned(-100.0);
    assert Ratio([], 0.0, 100) == 0.0;
    assert TraceAt(Front(GROWN[..1])) == NewTrace() && MeterAt(Front(GROWN[..1])) == NewMeter();
    assert LogAt(GROWN[..1]) == Trace([], [], Sample(0.0, true, false));
  }

  lemma AfterTwo()
    requires AllNormal(GROWN[..2])
    ensures MeterAt(GROWN[..2]) == Meter([FIRST], 10.0, false, true, 10.0, 0.0, false, false, 0.1)
    ensures TraceAt(GROWN[..2]) == Trace([FIRST], [ClipInterval(0.0, 10.0, false)], Sample(10.0, false, true))
  {
    Prefixes();
    AfterOne();
    assert Pruned([FIRST], -90.0) == [FIRST];
    assert ClippedTime([FIRST][1..], -90.0) == 0.0;
    assert Ratio([FIRST], 10.0, 100) == 0.1;
  }

  lemma AfterThree()
    requires AllNormal(GROWN[..3])
    ensures MeterAt(GROWN[..3]).history == [SECOND] && MeterAt(GROWN[..3]).lastTick == 200.0
      && !MeterAt(GROWN[..3]).isClipping
    ensures TraceAt(GROWN[..3]).atLimit == [FIRST, SECOND]
  {
    Prefixes();
    AfterTwo();
    var history := [FIRST, SECOND];
    assert history[1..] == [SECOND];
    assert Pruned([SECOND], 100.0) == [SECOND];
    assert Pruned(history, 100.0) == [SECOND];
    assert ClippedTime([SECOND][1..], 100.0) == 0.0;
    assert Ratio(history, 200.0, 100) == 0.0;
  }

  lemma LogOfLast()
    requires AllNormal(GROWN)
    ensures LogAt(GROWN).atLimit == [FIRST, SECOND, ClipInterval(200.0, 210.0, false)]
  {
    hide MeterAt;
    Prefixes();
    AfterThree();
    LastSeen();
    assert LogAt(GROWN) == Recorded(TraceAt(GROWN[..3]), 210.0, WIDE, 0.0, true);
  }

  lemma LastSeen()
    requires AllNormal(GROWN[..3])
    ensures TraceAt(GROWN[..3]).last == Sample(200.0, false, true)
  {
    Prefixes();
    RunTracked(GROWN[..3]);
    AfterTwo();
  }

  lemma NothingClipped(known: seq<ClipInterval>)
    requires |known| == 2 && !known[0].clipped && !known[1].clipped && known[0].end > -790.0
    ensures Ratio(known, 210.0, 1000) == 0.0
  {
    assert Pruned(known, -790.0) == known;
    assert ClippedTime(known[1..][1..], -790.0) == 0.0;
    assert ClippedTime(known[1..], -790.0) == 0.0;
  }

  lemma TimeOfThree(third: ClipInterval)
    requires !third.clipped
    ensures TimeAtLimit([FIRST, SECOND, third], -790.0, 210.0) == 10.0
  {
    assert [FIRST, SECOND, third][1..] == [SECOND, third] && [SECOND, third][1..] == [third] && [third][1..] == [];
    assert TimeAtLimit([third], -790.0, 210.0) == 0.0;
  }

  /**
   After the window has grown the ratio can be short of the truth: ten milliseconds at the limit,
   reported as none.
   */
  lemma GrowthForgets()
    ensures AllNormal(GROWN) && EdgeAt(GROWN).None?
    ensures AtLimit(LogAt(GROWN).atLimit, Last(GROWN)) == 10.0 && MeterAt(GROWN).clipRatio == 0.0
  {
    Prefixes();
    AfterThree();
    var third := ClipInterval(200.0, 210.0, false);
    assert LogAt(GROWN).atLimit == [FIRST, SECOND, third] by { LogOfLast(); }
    TimeOfThree(third);
    NothingClipped([SECOND, third]);
    assert Sampled(MeterAt(GROWN[..3]), 210.0, WIDE, 0.0).clipRatio == 0.0;
  }
}
