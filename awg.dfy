/** The copper wire-gauge table, ordered from the thinnest gauge to the thickest. */
module Awg {

  /** One gauge: its label, resistance in ohms per 1000 ft, and ampacity in amperes. */
  datatype AwgRow = AwgRow(awg: string, ohmsPerKuft: real, ampacityA: real)

  const AWG_TABLE: seq<AwgRow> := [
    AwgRow("18", 6.385, 7.0),
    AwgRow("16", 4.016, 10.0),
    AwgRow("14", 2.525, 15.0),
    AwgRow("12", 1.588, 25.0),
    AwgRow("10", 0.999, 40.0),
    AwgRow("8", 0.6282, 55.0),
    AwgRow("6", 0.3953, 75.0),
    AwgRow("4", 0.2485, 95.0),
    AwgRow("2", 0.1563, 130.0),
    AwgRow("1/0", 0.0983, 170.0)
  ]

  /** Resistance per foot: the per-1000-ft figure scaled down by 1000. */
  function OhmsPerFt(row: AwgRow): (r: real)
    ensures r * 1000.0 == row.ohmsPerKuft
    ensures row.ohmsPerKuft > 0.0 ==> r > 0.0
  {
    row.ohmsPerKuft / 1000.0
  }

  /** Ten rows, from gauge 18 to gauge 1/0. */
  lemma TableShape()
    ensures |AWG_TABLE| == 10
    ensures AWG_TABLE[0].awg == "18" && AWG_TABLE[|AWG_TABLE| - 1].awg == "1/0"
  {
  }

  /** Along the table, resistance strictly falls and ampacity strictly rises; resistance stays positive. */
  lemma TableIsOrdered()
    ensures forall i :: 0 <= i < |AWG_TABLE| ==> OhmsPerFt(AWG_TABLE[i]) > 0.0
    ensures forall i, j :: 0 <= i < j < |AWG_TABLE| ==>
      AWG_TABLE[j].ohmsPerKuft < AWG_TABLE[i].ohmsPerKuft && AWG_TABLE[i].ampacityA < AWG_TABLE[j].ampacityA
  {
    forall i | 0 <= i < |AWG_TABLE|
      ensures AWG_TABLE[i].ohmsPerKuft > 0.0
    {
    }
    forall i, j | 0 <= i < j < |AWG_TABLE|
      ensures AWG_TABLE[j].ohmsPerKuft < AWG_TABLE[i].ohmsPerKuft && AWG_TABLE[i].ampacityA < AWG_TABLE[j].ampacityA
    {
      AdjacentRowsOrdered(i, j);
    }
  }

  lemma {:induction false} AdjacentRowsOrdered(i: nat, j: nat)
    requires i < j < |AWG_TABLE|
    ensures AWG_TABLE[j].ohmsPerKuft < AWG_TABLE[i].ohmsPerKuft && AWG_TABLE[i].ampacityA < AWG_TABLE[j].ampacityA
    decreases j - i
  {
    if i + 1 < j {
      AdjacentRowsOrdered(i, j - 1);
    }
  }
}
