/** The record-assembly loop of generate_features: the accumulation table is
    built once from the first three columns of the cloud, then every sampled
    point gets one record made of its barycentric coordinates, its z, its 3D
    properties, its 3D shape descriptors, its 2D properties, its 2D
    descriptors, its cell's accumulation features and its extra channels
    divided by 255, in this order. The generator stops at the first exception
    a point raises. */
module FeatureGeneration {
  import opened Numerics
  import opened EigenFeatures
  import opened LocalProperties
  import opened Accumulation

  /** What the KD-tree query and the two PCAs give for one sampled point: the
      cloud indices of its neighbours, their distances to it, and the singular
      values of the neighbours in 3D and in the (x, y) plane. */
  datatype Neighbourhood = Neighbourhood(indices: seq<nat>, distances: seq<real>, sv3D: seq<real>, sv2D: seq<real>)

  /** Running the generator to its end: the records it yielded, in order, and
      the exception that stopped it, if one did. */
  datatype Run = Run(records: seq<seq<Scalar>>, failure: Option<Error>)

  /** What the KD-tree and the PCAs guarantee: neighbour indices inside the
      cloud, three non-negative singular values in 3D and two in 2D. */
  predicate ValidNeighbourhood(cloud: Matrix, h: Neighbourhood) {
    && (forall k :: 0 <= k < |h.indices| ==> h.indices[k] < |cloud.rows|)
    && |h.sv3D| == 3 && NonNegative(h.sv3D)
    && |h.sv2D| == 2
  }

  /** The sample mask and one neighbourhood per sampled point. */
  predicate ValidSample(cloud: Matrix, mask: seq<nat>, hoods: seq<Neighbourhood>) {
    && |mask| == |hoods|
    && forall k :: 0 <= k < |mask| ==> mask[k] < |cloud.rows| && ValidNeighbourhood(cloud, hoods[k])
  }

  /** point_cloud[:, :3]: the first three columns, or all of them when there
      are fewer. */
  function FirstColumns(cloud: Matrix): (m: Matrix)
    requires Rectangular(cloud)
    ensures Rectangular(m) && |m.rows| == |cloud.rows|
    ensures m.width == if cloud.width < 3 then cloud.width else 3
    ensures m.width == 3 ==> forall i :: 0 <= i < |m.rows| ==>
              Points(m)[i] == Point3(cloud.rows[i][0], cloud.rows[i][1], cloud.rows[i][2])
  {
    var w := if cloud.width < 3 then cloud.width else 3;
    Matrix(w, Prefixes(cloud.rows, w))
  }

  function Prefixes(rows: seq<seq<real>>, w: nat): (p: seq<seq<real>>)
    requires forall i :: 0 <= i < |rows| ==> w <= |rows[i]|
    ensures |p| == |rows| && forall i :: 0 <= i < |rows| ==> p[i] == rows[i][..w]
  {
    seq(|rows|, i requires 0 <= i < |rows| => rows[i][..w])
  }

  /** neighbors[:, 2]: the z of every neighbour. */
  function NeighbourZs(cloud: Matrix, indices: seq<nat>): (zs: seq<real>)
    requires Rectangular(cloud) && cloud.width >= 3
    requires forall k :: 0 <= k < |indices| ==> indices[k] < |cloud.rows|
    ensures |zs| == |indices| && forall k :: 0 <= k < |indices| ==> zs[k] == cloud.rows[indices[k]][2]
  {
    seq(|indices|, k requires 0 <= k < |indices| => cloud.rows[indices[k]][2])
  }

  /** neighbors[:, :2]: every neighbour projected on the (x, y) plane. */
  function NeighbourXYs(cloud: Matrix, indices: seq<nat>): (ps: seq<Point2>)
    requires Rectangular(cloud) && cloud.width >= 3
    requires forall k :: 0 <= k < |indices| ==> indices[k] < |cloud.rows|
    ensures |ps| == |indices|
    ensures forall k :: 0 <= k < |indices| ==>
              ps[k] == Point2(cloud.rows[indices[k]][0], cloud.rows[indices[k]][1])
  {
    seq(|indices|, k requires 0 <= k < |indices| =>
      Point2(cloud.rows[indices[k]][0], cloud.rows[indices[k]][1]))
  }

  /** (rgb_data / 255).tolist(): the columns after the third, divided by 255. */
  function Extras(row: seq<real>): (x: seq<Scalar>)
    requires |row| >= 3
    ensures |x| == |row| - 3 && forall j :: 0 <= j < |x| ==> x[j] == Exact(row[3 + j] / 255.0)
  {
    seq(|row| - 3, j requires 0 <= j < |row| - 3 => Exact(row[3 + j] / 255.0))
  }

  /** The concatenation of the sub-lists of one record, in the order
      generate_features joins them. */
  function Assemble(ab: seq<Scalar>, z: real, p3: seq<Scalar>, f3: seq<Scalar>, p2: seq<Scalar>,
                    f2: seq<Scalar>, acc: seq<Scalar>, extras: seq<Scalar>): (record: seq<Scalar>)
    requires |ab| == 2 && |p3| == 5 && |f3| == 8 && |p2| == 2 && |f2| == 2 && |acc| == 3
    ensures |record| == 23 + |extras|
    ensures record[..2] == ab && record[2] == Exact(z) && record[3..8] == p3 && record[8..16] == f3
    ensures record[16..18] == p2 && record[18..20] == f2 && record[20..23] == acc && record[23..] == extras
  {
    var record := ab + [Exact(z)] + p3 + f3 + p2 + f2 + acc + extras;
    assert record[..2] == ab;
    assert record[3..8] == p3;
    assert record[8..16] == f3;
    assert record[16..18] == p2;
    assert record[18..20] == f2;
    assert record[20..23] == acc;
    assert record[23..] == extras;
    record
  }

  /** The record of the cloud's point idx, or the exception computing it
      raises. Python evaluates the sub-lists left to right, so the first
      failing one decides the exception. */
  function PointRecord(cloud: Matrix, table: seq<AccRow>, idx: nat, h: Neighbourhood): (r: Result<seq<Scalar>, Error>)
    requires Rectangular(cloud) && cloud.width >= 3 && idx < |cloud.rows| && ValidNeighbourhood(cloud, h)
    ensures r.Ok? ==> |r.value| == 23 + (cloud.width - 3)
  {
    var row := cloud.rows[idx];
    var p3 :- Properties3D(NeighbourZs(cloud, h.indices), h.distances);
    var f3 :- EigenFeatures3D(h.sv3D);
    var p2 :- Properties2D(Point2(row[0], row[1]), NeighbourXYs(cloud, h.indices));
    var acc :- RetrieveAccumulationFeatures(Point3(row[0], row[1], row[2]), table);
    Ok(Assemble(Exacts(VarianceSpaceCoordinates(h.sv3D)), row[2], p3, f3, p2, EigenFeatures2D(h.sv2D), acc, Extras(row)))
  }

  /** A record is computed exactly when none of its sub-lists raises, and the
      exception is that of the first sub-list that does. A computed record has
      23 entries plus one per extra channel: the barycentric coordinates, the
      point's z, the 3D properties, the 3D descriptors, the 2D properties,
      the 2D descriptors, the accumulation features and the extra channels
      divided by 255. */
  lemma RecordLayout(cloud: Matrix, table: seq<AccRow>, idx: nat, h: Neighbourhood)
    requires Rectangular(cloud) && cloud.width >= 3 && idx < |cloud.rows| && ValidNeighbourhood(cloud, h)
    ensures var row := cloud.rows[idx];
      var r := PointRecord(cloud, table, idx, h);
      var p3 := Properties3D(NeighbourZs(cloud, h.indices), h.distances);
      var f3 := EigenFeatures3D(h.sv3D);
      var p2 := Properties2D(Point2(row[0], row[1]), NeighbourXYs(cloud, h.indices));
      var acc := RetrieveAccumulationFeatures(Point3(row[0], row[1], row[2]), table);
      && (r.Ok? <==> p3.Ok? && f3.Ok? && p2.Ok? && acc.Ok?)
      && (r.Err? ==> r.error == (if p3.Err? then p3.error else if f3.Err? then f3.error
                                 else if p2.Err? then p2.error else acc.error))
      && (r.Ok? ==>
            && |r.value| == 23 + (cloud.width - 3)
            && r.value[..2] == Exacts(VarianceSpaceCoordinates(h.sv3D))
            && r.value[2] == Exact(row[2])
            && r.value[3..8] == p3.value
            && r.value[8..16] == f3.value
            && r.value[16..18] == p2.value
            && r.value[18..20] == EigenFeatures2D(h.sv2D)
            && r.value[20..23] == acc.value
            && r.value[23..] == Extras(row))
  {
  }

  /** Running a generator whose loop computes these results in turn: the
      records up to the first exception, then that exception. */
  function RunOf(results: seq<Result<seq<Scalar>, Error>>): (run: Run)
    ensures |run.records| <= |results|
    ensures forall k :: 0 <= k < |run.records| ==> results[k] == Ok(run.records[k])
  {
    if results == [] then Run([], None)
    else if results[0].Err? then Run([], Some(results[0].error))
    else
      var rest := RunOf(results[1..]);
      Run([results[0].value] + rest.records, rest.failure)
  }

  /** The run of one more result in front. */
  lemma RunOfCons(r: Result<seq<Scalar>, Error>, rest: seq<Result<seq<Scalar>, Error>>)
    ensures RunOf([r] + rest) ==
      if r.Err? then Run([], Some(r.error)) else Run([r.value] + RunOf(rest).records, RunOf(rest).failure)
  {
    assert ([r] + rest)[1..] == rest;
  }

  /** The run from the i-th result on. */
  lemma RunStep(results: seq<Result<seq<Scalar>, Error>>, i: nat)
    requires i < |results|
    ensures results[i..] == [results[i]] + results[i + 1..]
    ensures RunOf(results[i..]) == RunOf([results[i]] + results[i + 1..])
  {
    assert results[i..] == [results[i]] + results[i + 1..];
  }

  /** The loop invariant of YieldRecords carried over one more record. */
  lemma RunAfterRecord(run: Run, records: seq<seq<Scalar>>, record: seq<Scalar>, rest: seq<Result<seq<Scalar>, Error>>)
    requires run == Run(records + RunOf([Ok(record)] + rest).records, RunOf([Ok(record)] + rest).failure)
    ensures run == Run((records + [record]) + RunOf(rest).records, RunOf(rest).failure)
  {
    RunOfCons(Ok(record), rest);
    assert (records + [record]) + RunOf(rest).records == records + ([record] + RunOf(rest).records);
  }

  /** A run is the values of the results, in order, up to the first failure;
      that failure, if there is one, is the run's exception. */
  lemma {:induction false} RunStopsAtFirstFailure(results: seq<Result<seq<Scalar>, Error>>)
    ensures var run := RunOf(results);
      && |run.records| <= |results|
      && (forall k :: 0 <= k < |run.records| ==> results[k] == Ok(run.records[k]))
      && (run.failure.None? <==> |run.records| == |results|)
      && (run.failure.Some? ==> results[|run.records|] == Err(run.failure.value))
  {
    if results != [] && results[0].Ok? {
      RunStopsAtFirstFailure(results[1..]);
    }
  }

  /** The records of the sampled points, in sample order, each with the
      exception computing it would raise. */
  function SampleRecords(cloud: Matrix, table: seq<AccRow>, mask: seq<nat>, hoods: seq<Neighbourhood>)
    : (rs: seq<Result<seq<Scalar>, Error>>)
    requires Rectangular(cloud) && cloud.width >= 3 && ValidSample(cloud, mask, hoods)
    ensures |rs| == |mask|
    decreases |mask|
  {
    if mask == [] then []
    else [PointRecord(cloud, table, mask[0], hoods[0])] + SampleRecords(cloud, table, mask[1..], hoods[1..])
  }

  /** The k-th sample record is the record of the k-th sampled point. */
  lemma {:induction false} SampleRecordsAt(cloud: Matrix, table: seq<AccRow>, mask: seq<nat>, hoods: seq<Neighbourhood>)
    requires Rectangular(cloud) && cloud.width >= 3 && ValidSample(cloud, mask, hoods)
    ensures var rs := SampleRecords(cloud, table, mask, hoods);
      |rs| == |mask| && forall k :: 0 <= k < |mask| ==> rs[k] == PointRecord(cloud, table, mask[k], hoods[k])
    decreases |mask|
  {
    if mask != [] {
      SampleRecordsAt(cloud, table, mask[1..], hoods[1..]);
    }
  }

  /** What generate_features yields: nothing if building the accumulation
      table raises, otherwise the records of the sampled points up to the
      first one that raises. */
  function GeneratedFeatures(cloud: Matrix, mask: seq<nat>, hoods: seq<Neighbourhood>): (run: Run)
    requires Rectangular(cloud) && ValidSample(cloud, mask, hoods)
    ensures cloud.width < 3 ==> run == Run([], Some(AssertionFailed))
    ensures cloud.width >= 3 && |cloud.rows| == 0 ==> run == Run([], Some(EmptyArgument))
  {
    var table := AccumulationTable(FirstColumns(cloud), DefaultBinSize, DefaultBuffer);
    if table.Err? then Run([], Some(table.error))
    else RunOf(SampleRecords(cloud, table.value, mask, hoods))
  }

  /** generate_features: builds the accumulation table, then runs the loop
      over the sample. */
  method GenerateFeatures(cloud: Matrix, mask: seq<nat>, hoods: seq<Neighbourhood>)
    returns (records: seq<seq<Scalar>>, failure: Option<Error>)
    requires Rectangular(cloud) && ValidSample(cloud, mask, hoods)
    ensures Run(records, failure) == GeneratedFeatures(cloud, mask, hoods)
  {
    var table := BuildAccumulationFeatures(FirstColumns(cloud), DefaultBinSize, DefaultBuffer);
    if table.Err? {
      return [], Some(table.error);
    }
    records, failure := YieldRecords(cloud, table.value, mask, hoods);
  }

  /** The `for point in sample` loop of generate_features: appends the record
      of each sampled point in turn and stops at the first exception. */
  method YieldRecords(cloud: Matrix, table: seq<AccRow>, mask: seq<nat>, hoods: seq<Neighbourhood>)
    returns (records: seq<seq<Scalar>>, failure: Option<Error>)
    requires Rectangular(cloud) && cloud.width >= 3 && ValidSample(cloud, mask, hoods)
    ensures Run(records, failure) == RunOf(SampleRecords(cloud, table, mask, hoods))
  {
    ghost var rs := SampleRecords(cloud, table, mask, hoods);
    SampleRecordsAt(cloud, table, mask, hoods);
    records, failure := [], None;
    var i := 0;
    assert rs[0..] == rs;
    while i < |mask|
      invariant 0 <= i <= |mask|
      invariant RunOf(rs) == Run(records + RunOf(rs[i..]).records, RunOf(rs[i..]).failure)
    {
      var record := PointRecord(cloud, table, mask[i], hoods[i]);
      RunStep(rs, i);
      if record.Err? {
        return records, Some(record.error);
      }
      RunAfterRecord(RunOf(rs), records, record.value, rs[i + 1..]);
      records := records + [record.value];
      i := i + 1;
    }
  }

  /** The mask generate_features uses when no sample size is given:
      range(point_cloud.shape[0]). */
  function AllPoints(n: nat): (mask: seq<nat>)
    ensures |mask| == n && forall k :: 0 <= k < n ==> mask[k] == k
  {
    seq(n, k requires 0 <= k < n => k)
  }

  /** A computed record carries the point's z third and ends with the
      point's extra channels divided by 255. */
  lemma RecordEnds(cloud: Matrix, table: seq<AccRow>, idx: nat, h: Neighbourhood)
    requires Rectangular(cloud) && cloud.width >= 3 && idx < |cloud.rows| && ValidNeighbourhood(cloud, h)
    ensures var r := PointRecord(cloud, table, idx, h);
      r.Ok? ==> r.value[2] == Exact(cloud.rows[idx][2]) && r.value[23..] == Extras(cloud.rows[idx])
  {
    RecordLayout(cloud, table, idx, h);
  }

  /** Without sampling, a run that raises nothing yields one record per point
      of the cloud, in the cloud's order; each has 23 entries plus one per
      extra channel, carries the point's z third and ends with the point's
      extra channels divided by 255. */
  lemma GenerateAllPoints(cloud: Matrix, hoods: seq<Neighbourhood>)
    requires Rectangular(cloud) && ValidSample(cloud, AllPoints(|cloud.rows|), hoods)
    ensures var run := GeneratedFeatures(cloud, AllPoints(|cloud.rows|), hoods);
      run.failure.None? ==>
        && |run.records| == |cloud.rows|
        && forall k :: 0 <= k < |cloud.rows| ==>
             && |run.records[k]| == 23 + (cloud.width - 3)
             && run.records[k][2] == Exact(cloud.rows[k][2])
             && run.records[k][23..] == Extras(cloud.rows[k])
  {
    var mask := AllPoints(|cloud.rows|);
    var table := AccumulationTable(FirstColumns(cloud), DefaultBinSize, DefaultBuffer);
    if table.Ok? {
      var rs := SampleRecords(cloud, table.value, mask, hoods);
      SampleRecordsAt(cloud, table.value, mask, hoods);
      RunStopsAtFirstFailure(rs);
      var run := RunOf(rs);
      if run.failure.None? {
        forall k | 0 <= k < |cloud.rows|
          ensures && |run.records[k]| == 23 + (cloud.width - 3)
                  && run.records[k][2] == Exact(cloud.rows[k][2])
                  && run.records[k][23..] == Extras(cloud.rows[k])
        {
          assert rs[k] == PointRecord(cloud, table.value, k, hoods[k]) == Ok(run.records[k]);
          RecordEnds(cloud, table.value, k, hoods[k]);
        }
      }
    }
  }

  /** When a point's record is computed, the accumulation part is the
      statistics of the point's own cell, and no other point of the cloud has
      the same x, y and z. */
  lemma RecordAccumulationFeatures(cloud: Matrix, idx: nat, h: Neighbourhood)
    requires Rectangular(cloud) && cloud.width >= 3 && |cloud.rows| > 0
    requires idx < |cloud.rows| && ValidNeighbourhood(cloud, h)
    ensures var table := AccumulationTable(FirstColumns(cloud), DefaultBinSize, DefaultBuffer).value;
      var r := PointRecord(cloud, table, idx, h);
      r.Ok? ==>
        && r.value[20..23] == RowFeatures(table[idx])
        && forall j :: 0 <= j < |cloud.rows| && cloud.rows[j][..3] == cloud.rows[idx][..3] ==> j == idx
  {
    var m := FirstColumns(cloud);
    RecordLayout(cloud, AccumulationTable(m, DefaultBinSize, DefaultBuffer).value, idx, h);
    RetrieveFromOwnTable(m, DefaultBinSize, DefaultBuffer, idx);
    forall j | 0 <= j < |cloud.rows| && cloud.rows[j][..3] == cloud.rows[idx][..3]
      ensures Points(m)[j] == Points(m)[idx]
    {
      assert cloud.rows[j][0] == cloud.rows[j][..3][0];
      assert cloud.rows[j][1] == cloud.rows[j][..3][1];
      assert cloud.rows[j][2] == cloud.rows[j][..3][2];
    }
  }

  /** A sampled point whose x, y and z occur twice in the cloud stops the
      generator: the lookup of its accumulation features finds two rows. */
  lemma DuplicatePointStopsRun(cloud: Matrix, mask: seq<nat>, hoods: seq<Neighbourhood>, k: nat, j: nat)
    requires Rectangular(cloud) && ValidSample(cloud, mask, hoods)
    requires k < |mask| && j < |cloud.rows| && j != mask[k]
    requires cloud.width >= 3 && cloud.rows[j][..3] == cloud.rows[mask[k]][..3]
    ensures GeneratedFeatures(cloud, mask, hoods).failure.Some?
  {
    var table := AccumulationTable(FirstColumns(cloud), DefaultBinSize, DefaultBuffer);
    SampleRecordsAt(cloud, table.value, mask, hoods);
    RunStopsAtFirstFailure(SampleRecords(cloud, table.value, mask, hoods));
    RecordAccumulationFeatures(cloud, mask[k], hoods[k]);
  }
}
