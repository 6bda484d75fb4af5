/** The sample buffer of the analysis: each accelerometer batch is folded
    into the buffer one sample at a time, skipping samples taken while the
    vibration motor ran, until the buffer holds nSamp samples. */
module SampleBuffer {

  /** One reading of the accelerometer (milli-g on each axis). */
  datatype AccelSample = AccelSample(x: int, y: int, z: int, didVibrate: bool)

  function Abs(v: int): nat { if v < 0 then -v else v }

  /** The value stored for a sample: the sum of the absolute values of the
      three axes. */
  function SampleValue(s: AccelSample): (v: nat)
    ensures v == 0 <==> s.x == 0 && s.y == 0 && s.z == 0
  {
    Abs(s.x) + Abs(s.y) + Abs(s.z)
  }

  /** The values a batch contributes when nothing interrupts it: one per
      sample taken while the motor was still. */
  function Stored(batch: seq<AccelSample>): (vs: seq<nat>)
    ensures |vs| <= |batch|
  {
    if |batch| == 0 then []
    else if batch[|batch| - 1].didVibrate then Stored(batch[..|batch| - 1])
    else Stored(batch[..|batch| - 1]) + [SampleValue(batch[|batch| - 1])]
  }

  /** The buffer contents, the next write position and the full flag. */
  datatype BufferState = BufferState(data: seq<int>, pos: int, full: bool)

  /** The effect of one batch: a sample that finds the write position at or
      past nSamp is not stored; it resets the position, marks the buffer
      full and ends the batch. Otherwise a still sample is stored and the
      position advances, and a vibrating one is skipped. */
  function Ingest(st: BufferState, nSamp: int, batch: seq<AccelSample>): (r: BufferState)
    requires 0 <= st.pos && nSamp <= |st.data|
    ensures |r.data| == |st.data| && 0 <= r.pos
    ensures r.pos <= nSamp || r.pos <= st.pos
    ensures st.full ==> r.full
    ensures forall k :: 0 <= k < |st.data| && !(st.pos <= k < nSamp) ==> r.data[k] == st.data[k]
    decreases |batch|
  {
    if |batch| == 0 then st
    else if st.pos >= nSamp then BufferState(st.data, 0, true)
    else if batch[0].didVibrate then Ingest(st, nSamp, batch[1..])
    else Ingest(BufferState(st.data[st.pos := SampleValue(batch[0])], st.pos + 1, st.full), nSamp, batch[1..])
  }

  lemma {:induction false} StoredCons(s: AccelSample, rest: seq<AccelSample>)
    ensures Stored([s] + rest) == (if s.didVibrate then [] else [SampleValue(s)]) + Stored(rest)
    decreases |rest|
  {
    if |rest| > 0 {
      var init := rest[..|rest| - 1];
      assert ([s] + rest)[..|rest|] == [s] + init;
      StoredCons(s, init);
    } else {
      assert [s] + rest == [s];
      assert [s][..0] == [];
    }
  }

  /** The batch's still samples `vs` went in right after the old write
      position and the buffer did not reach its end. */
  predicate Appended(st: BufferState, nSamp: int, vs: seq<nat>, r: BufferState)
    requires 0 <= st.pos <= |st.data|
  {
    st.pos + |vs| <= nSamp <= |st.data| && r.pos == st.pos + |vs| && r.full == st.full
    && r.data == st.data[..st.pos] + vs + st.data[st.pos + |vs|..]
  }

  /** The first of `vs` filled the buffer up to nSamp, the rest were
      dropped, the position went back to 0 and the buffer is full. */
  predicate Filled(st: BufferState, nSamp: int, vs: seq<nat>, r: BufferState)
    requires 0 <= st.pos <= nSamp <= |st.data|
  {
    st.pos + |vs| >= nSamp && r.pos == 0 && r.full
    && r.data == st.data[..st.pos] + vs[..nSamp - st.pos] + st.data[nSamp..]
  }

  lemma AppendedStep(st: BufferState, nSamp: int, v: nat, vs: seq<nat>, r: BufferState)
    requires 0 <= st.pos < nSamp <= |st.data|
    requires Appended(BufferState(st.data[st.pos := v], st.pos + 1, st.full), nSamp, vs, r)
    ensures Appended(st, nSamp, [v] + vs, r)
  {
    var d := st.data[st.pos := v];
    assert d[..st.pos + 1] == st.data[..st.pos] + [v];
    assert d[st.pos + 1 + |vs|..] == st.data[st.pos + 1 + |vs|..];
  }

  lemma FilledStep(st: BufferState, nSamp: int, v: nat, vs: seq<nat>, r: BufferState)
    requires 0 <= st.pos < nSamp <= |st.data|
    requires Filled(BufferState(st.data[st.pos := v], st.pos + 1, st.full), nSamp, vs, r)
    ensures Filled(st, nSamp, [v] + vs, r)
  {
    var d := st.data[st.pos := v];
    assert d[..st.pos + 1] == st.data[..st.pos] + [v];
    assert ([v] + vs)[..nSamp - st.pos] == [v] + vs[..nSamp - st.pos - 1];
  }

  /** Every batch either fits in the free part of the buffer, which then
      holds its still samples right after the old write position, or it
      reaches the end of the buffer: the buffer is then filled up to nSamp
      with the first of those samples, the position returns to 0 and the
      buffer is marked full. In particular the full flag is never set
      before nSamp samples have been written since the position was 0. */
  lemma {:induction false} IngestOutcome(st: BufferState, nSamp: int, batch: seq<AccelSample>)
    requires 0 <= st.pos <= nSamp <= |st.data|
    ensures Appended(st, nSamp, Stored(batch), Ingest(st, nSamp, batch))
      || Filled(st, nSamp, Stored(batch), Ingest(st, nSamp, batch))
    decreases |batch|
  {
    if |batch| == 0 {
      assert st.data == st.data[..st.pos] + [] + st.data[st.pos..];
    } else {
      var s, rest := batch[0], batch[1..];
      assert batch == [s] + rest;
      StoredCons(s, rest);
      if st.pos == nSamp {
        assert Filled(st, nSamp, Stored(batch), Ingest(st, nSamp, batch));
      } else if s.didVibrate {
        assert Stored(batch) == Stored(rest);
        assert Ingest(st, nSamp, batch) == Ingest(st, nSamp, rest);
        IngestOutcome(st, nSamp, rest);
      } else {
        var st' := BufferState(st.data[st.pos := SampleValue(s)], st.pos + 1, st.full);
        assert Stored(batch) == [SampleValue(s)] + Stored(rest);
        assert Ingest(st, nSamp, batch) == Ingest(st', nSamp, rest);
        IngestOutcome(st', nSamp, rest);
        StillSampleStep(st, nSamp, SampleValue(s), Stored(rest), Ingest(st', nSamp, rest));
      }
    }
  }

  /** Storing one still sample `v` and then the rest `vs` is storing
      [v] + vs, whichever way the rest ended. */
  lemma StillSampleStep(st: BufferState, nSamp: int, v: nat, vs: seq<nat>, r: BufferState)
    requires 0 <= st.pos < nSamp <= |st.data|
    requires Appended(BufferState(st.data[st.pos := v], st.pos + 1, st.full), nSamp, vs, r)
          || Filled(BufferState(st.data[st.pos := v], st.pos + 1, st.full), nSamp, vs, r)
    ensures Appended(st, nSamp, [v] + vs, r) || Filled(st, nSamp, [v] + vs, r)
  {
    if Appended(BufferState(st.data[st.pos := v], st.pos + 1, st.full), nSamp, vs, r) {
      AppendedStep(st, nSamp, v, vs, r);
    } else {
      FilledStep(st, nSamp, v, vs, r);
    }
  }

  /** A batch that leaves room to spare is appended in full: no sample of
      it is lost and the buffer is not yet full. */
  lemma BatchWithRoomIsAppended(st: BufferState, nSamp: int, batch: seq<AccelSample>)
    requires 0 <= st.pos && st.pos + |Stored(batch)| < nSamp <= |st.data|
    ensures Ingest(st, nSamp, batch) ==
      BufferState(st.data[..st.pos] + Stored(batch) + st.data[st.pos + |Stored(batch)|..],
        st.pos + |Stored(batch)|, st.full)
  {
    IngestOutcome(st, nSamp, batch);
  }

  /** A batch with more still samples than the free space fills the buffer
      up to nSamp, drops the rest and marks the buffer full. */
  lemma OverflowingBatchFillsBuffer(st: BufferState, nSamp: int, batch: seq<AccelSample>)
    requires 0 <= st.pos <= nSamp <= |st.data| && st.pos + |Stored(batch)| > nSamp
    ensures Ingest(st, nSamp, batch) ==
      BufferState(st.data[..st.pos] + Stored(batch)[..nSamp - st.pos] + st.data[nSamp..], 0, true)
  {
    IngestOutcome(st, nSamp, batch);
  }

  /** A write position left beyond nSamp (after nSamp shrank) is reset by
      the first sample of the next batch, which is itself not stored. */
  lemma StalePositionResets(st: BufferState, nSamp: int, batch: seq<AccelSample>)
    requires 0 <= nSamp <= |st.data| && st.pos >= nSamp && |batch| > 0
    ensures Ingest(st, nSamp, batch) == BufferState(st.data, 0, true)
  {
  }
}
