/**
 * Summary statistics over real samples that the model computes exactly:
 * numpy's `median`, and the window summary of `calcular_estatisticas`
 * (src/monitoramento/monitoramento.py). The standard deviation needs a
 * square root and is supplied by the caller.
 */
module Stats {
  import opened Wrappers
  import opened Seqs
  import opened Sorting

  function Id(x: real): real
  {
    x
  }

  /** numpy's `median`: the middle of the sorted samples, or the mean of the two middle ones. */
  function Median(s: seq<real>): real
    requires |s| > 0
  {
    SortByAscending(s, Id);
    var t := SortBy(s, Id);
    var n := |t|;
    if n % 2 == 1 then t[n / 2] else (t[n / 2 - 1] + t[n / 2]) / 2.0
  }

  /** Every element of the sorted samples is one of the samples. */
  lemma SortedSamples(s: seq<real>)
    ensures |SortBy(s, Id)| == |s|
    ensures forall i :: 0 <= i < |s| ==> SortBy(s, Id)[i] in s
  {
    SortByAscending(s, Id);
    SortByPermutes(s, Id);
    var t := SortBy(s, Id);
    forall i | 0 <= i < |s| ensures t[i] in s {
      assert t[i] in multiset(t);
    }
  }

  /** The median lies between the smallest and the largest sample. */
  lemma MedianBounds(s: seq<real>)
    requires |s| > 0
    ensures Min(s) <= Median(s) <= Max(s)
  {
    SortedSamples(s);
    var t := SortBy(s, Id);
    var n := |t|;
    forall i | 0 <= i < n ensures Min(s) <= t[i] <= Max(s) {
      assert t[i] in s;
    }
  }

  /** The summary `calcular_estatisticas` returns for a non-empty window. */
  datatype Summary = Summary(
    contagem: nat,
    media: real,
    mediana: real,
    minimo: real,
    maximo: real,
    desvioPadrao: real)

  /**
   * `AgregadorTemporal.calcular_estatisticas` on the window's values:
   * `None` stands for the dictionary whose every statistic is None
   * (an empty window, contagem 0). `stdDev` is numpy's population standard
   * deviation, which the model does not compute.
   */
  function Summarize(values: seq<real>, stdDev: seq<real> -> real): Option<Summary>
  {
    if |values| == 0 then None
    else Some(Summary(
      |values|,
      Mean(values),
      Median(values),
      Min(values),
      Max(values),
      if |values| > 1 then stdDev(values) else 0.0))
  }

  /** What the window summary promises: count, bounds on mean and median, zero deviation for one sample. */
  lemma SummaryProperties(values: seq<real>, stdDev: seq<real> -> real)
    ensures Summarize(values, stdDev).None? <==> |values| == 0
    ensures Summarize(values, stdDev).Some? ==>
      var r := Summarize(values, stdDev).value;
      && r.contagem == |values|
      && r.minimo <= r.media <= r.maximo
      && r.minimo <= r.mediana <= r.maximo
      && (forall i :: 0 <= i < |values| ==> r.minimo <= values[i] <= r.maximo)
      && (|values| == 1 ==> r.desvioPadrao == 0.0)
  {
    if |values| > 0 {
      MeanBounds(values);
      MedianBounds(values);
    }
  }
}
