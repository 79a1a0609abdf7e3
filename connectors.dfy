/** The connector rating table and its case-insensitive lookup by family name. */
module Connectors {
  import opened Optional

  datatype ConnectorSpec = ConnectorSpec(family: string, contA: real, burstA: real)

  const CONNECTORS: seq<ConnectorSpec> := [
    ConnectorSpec("XT30", 30.0, 40.0),
    ConnectorSpec("Deans", 60.0, 75.0),
    ConnectorSpec("XT60", 60.0, 80.0),
    ConnectorSpec("XT90", 90.0, 120.0),
    ConnectorSpec("QS8", 200.0, 300.0)
  ]

  /** Lower-cases one character (ASCII letters only). */
  function LowerChar(ch: char): (r: char)
    ensures 'A' <= ch <= 'Z' ==> 'a' <= r <= 'z'
    ensures 'A' <= ch <= 'Z' ==> r as int - 'a' as int == ch as int - 'A' as int
    ensures !('A' <= ch <= 'Z') ==> r == ch
  {
    if 'A' <= ch <= 'Z' then (ch as int - 'A' as int + 'a' as int) as char else ch
  }

  /** `toLowerCase`, restricted to ASCII letters. */
  function ToLower(s: string): (r: string)
    ensures |r| == |s|
    ensures forall i :: 0 <= i < |s| ==> r[i] == LowerChar(s[i])
  {
    if s == [] then [] else [LowerChar(s[0])] + ToLower(s[1..])
  }

  /** The two names are equal once both are lower-cased. */
  predicate SameFamily(a: string, b: string) {
    ToLower(a) == ToLower(b)
  }

  /** `table.find(...)` from position `i` on; `getConnector` searches `CONNECTORS`. */
  function FindFrom(table: seq<ConnectorSpec>, family: string, i: nat): (r: Option<nat>)
    requires i <= |table|
    ensures r.Some? ==> i <= r.value < |table| && SameFamily(table[r.value].family, family)
    ensures r.Some? ==> forall j :: i <= j < r.value ==> !SameFamily(table[j].family, family)
    ensures r.None? <==> forall j :: i <= j < |table| ==> !SameFamily(table[j].family, family)
    decreases |table| - i
  {
    if i == |table| then None
    else if SameFamily(table[i].family, family) then Some(i)
    else FindFrom(table, family, i + 1)
  }

  /** `getConnector`: the first entry whose family matches case-insensitively, or nothing. */
  function GetConnector(family: string): (r: Option<ConnectorSpec>)
    ensures r.Some? <==> exists k :: 0 <= k < |CONNECTORS| && SameFamily(CONNECTORS[k].family, family)
    ensures r.Some? ==> exists k :: (0 <= k < |CONNECTORS| && r.value == CONNECTORS[k] && SameFamily(r.value.family, family) &&
      forall j :: 0 <= j < k ==> !SameFamily(CONNECTORS[j].family, family))
    ensures r.Some? ==> 0.0 < r.value.contA < r.value.burstA
  {
    TableRatingsOrdered();
    match FindFrom(CONNECTORS, family, 0)
    case None => None
    case Some(k) => Some(CONNECTORS[k])
  }

  /** Every entry has a positive continuous rating below its burst rating. */
  lemma TableRatingsOrdered()
    ensures forall k :: 0 <= k < |CONNECTORS| ==> 0.0 < CONNECTORS[k].contA < CONNECTORS[k].burstA
  {
  }

  /** No two families coincide once lower-cased, so at most one entry can match a query. */
  lemma FamiliesDistinct()
    ensures forall i, j :: 0 <= i < j < |CONNECTORS| ==> ToLower(CONNECTORS[i].family) != ToLower(CONNECTORS[j].family)
  {
    forall i, j | 0 <= i < j < |CONNECTORS|
      ensures ToLower(CONNECTORS[i].family) != ToLower(CONNECTORS[j].family)
    {
      var a, b := CONNECTORS[i].family, CONNECTORS[j].family;
      if |a| == |b| {
        var k := if a[0] != b[0] then 0 else if a[1] != b[1] then 1 else 2;
        assert ToLower(a)[k] != ToLower(b)[k];
      }
    }
  }

  /** At most one entry matches any query. */
  lemma AtMostOneMatch(family: string, i: nat, j: nat)
    requires i < |CONNECTORS| && j < |CONNECTORS|
    requires SameFamily(CONNECTORS[i].family, family) && SameFamily(CONNECTORS[j].family, family)
    ensures i == j
  {
    FamiliesDistinct();
  }

  /** XT60 is found under any capitalisation and is rated 60 A continuous, 80 A burst. */
  lemma Xt60Lookup()
    ensures GetConnector("XT60") == Some(ConnectorSpec("XT60", 60.0, 80.0))
    ensures GetConnector("xt60") == Some(ConnectorSpec("XT60", 60.0, 80.0))
  {
    assert SameFamily(CONNECTORS[2].family, "XT60");
    assert SameFamily(CONNECTORS[2].family, "xt60");
    FindsEntry("XT60", 2);
    FindsEntry("xt60", 2);
  }

  lemma FindsEntry(family: string, k: nat)
    requires k < |CONNECTORS| && SameFamily(CONNECTORS[k].family, family)
    ensures GetConnector(family) == Some(CONNECTORS[k])
  {
    var r := FindFrom(CONNECTORS, family, 0);
    assert r.Some?;
    AtMostOneMatch(family, r.value, k);
  }
}
