/**
 * The fixed tables of the tree image: the colour legend (`legendData`) and the
 * layer order (`layerOrder`), with the two lookups done against them.
 */
module Legend {
  import opened Text
  import opened Wrappers

  /** Colours are opaque CSS strings. */
  type Color = string

  datatype LegendEntry = LegendEntry(text: string, color: Color)

  const BACKGROUND_COLOR: Color := "#FFFFFF"
  const COLOR_TITLE: Color := "#333333"
  const COLOR_TEXT: Color := "#444444"
  const COLOR_SECONDARY_TEXT: Color := "#999999"

  /** `legendData`: one colour per relationship, in legend order. */
  const LegendData: seq<LegendEntry> := [
    LegendEntry("Principal", "#007BFF"),
    LegendEntry("Cónyuge/Pareja", "#FFC107"),
    LegendEntry("Hijo/Hija", "#28A745"),
    LegendEntry("Hermano/Hermana", "#6F42C1"),
    LegendEntry("Padre/Madre", "#DC3545"),
    LegendEntry("Abuelo/Abuela", "#17A2B8"),
    LegendEntry("Tío/Tía", "#FD7E14"),
    LegendEntry("Primo/Prima", "#E83E8C")
  ]

  /** `layerOrder`: the tiers of the tree from top to bottom. */
  const LayerOrder: seq<string> := [
    "Abuelo/Abuela", "Padre/Madre", "Principal", "Cónyuge/Pareja",
    "Hermano/Hermana", "Hijo/Hija", "Tío/Tía", "Primo/Prima"
  ]

  /** The normalised `legendData` texts, the keys the colour lookup compares
      against (`LegendKeysSpec` proves them equal to the normalised texts). */
  const LegendKeys: seq<string> := [
    "principal", "cnyugepareja", "hijohija", "hermanohermana",
    "padremadre", "abueloabuela", "tota", "primoprima"
  ]

  /** The stripped `layerOrder` names, the keys `getLayerIndex` compares against
      (`LayerKeysSpec` proves them equal to the stripped names). */
  const LayerKeys: seq<string> := [
    "AbueloAbuela", "PadreMadre", "Principal", "CnyugePareja",
    "HermanoHermana", "HijoHija", "ToTa", "PrimoPrima"
  ]

  /** Position of the first key equal to `key`, or -1. */
  function FindKey(keys: seq<string>, key: string): (r: int)
    ensures -1 <= r < |keys|
    ensures r == -1 <==> key !in keys
    ensures r >= 0 ==> keys[r] == key && key !in keys[..r]
  {
    if keys == [] then -1
    else if keys[0] == key then 0
    else
      var r := FindKey(keys[1..], key);
      assert keys == [keys[0]] + keys[1..];
      if r < 0 then -1
      else
        assert keys[..r + 1] == [keys[0]] + keys[1..][..r];
        r + 1
  }

  /** The colour a node receives: that of the legend entry whose normalised
      text equals the normalised relationship, else `COLOR_TEXT`. */
  function LegendColor(relationship: string): (r: Color)
    ensures Normalize(relationship) !in LegendKeys ==> r == COLOR_TEXT
    ensures forall k :: 0 <= k < |LegendKeys| && LegendKeys[k] == Normalize(relationship) ==>
              r == LegendData[k].color
  {
    LegendKeysDistinct();
    var k := FindKey(LegendKeys, Normalize(relationship));
    if k >= 0 then LegendData[k].color else COLOR_TEXT
  }

  /** `getLayerIndex`: strips the relationship (without lower-casing it) and
      gives the position of the matching layer name, or -1. */
  function LayerIndex(relationship: string): (r: int)
    ensures -1 <= r < |LayerOrder|
    ensures r == -1 <==> Strip(relationship) !in LayerKeys
    ensures r >= 0 ==> LayerKeys[r] == Strip(relationship)
  {
    FindKey(LayerKeys, Strip(relationship))
  }

  /** `legendData.find(item => normalise(item.text) === key)`, the lookup as
      the source writes it, normalising every entry on the way. */
  function FindEntry(entries: seq<LegendEntry>, key: string): (r: Option<LegendEntry>)
    ensures r.None? <==> forall i :: 0 <= i < |entries| ==> Normalize(entries[i].text) != key
    ensures r.Some? ==> exists i :: 0 <= i < |entries| && entries[i] == r.value &&
                          Normalize(entries[i].text) == key &&
                          forall j :: 0 <= j < i ==> Normalize(entries[j].text) != key
  {
    if entries == [] then None
    else if Normalize(entries[0].text) == key then Some(entries[0])
    else
      var r := FindEntry(entries[1..], key);
      assert forall i :: 0 <= i < |entries| - 1 ==> entries[1..][i] == entries[i + 1];
      r
  }

  /** `layerOrder.findIndex(p => strip(p) === key)`, the lookup as the source
      writes it, stripping every layer name on the way. */
  function FindLayer(order: seq<string>, key: string): (r: int)
    ensures -1 <= r < |order|
    ensures r == -1 <==> forall i :: 0 <= i < |order| ==> Strip(order[i]) != key
    ensures r >= 0 ==> Strip(order[r]) == key && forall j :: 0 <= j < r ==> Strip(order[j]) != key
  {
    if order == [] then -1
    else if Strip(order[0]) == key then 0
    else
      var r := FindLayer(order[1..], key);
      if r < 0 then -1 else r + 1
  }

  /** The colour lookup gives what the source's `find` over the legend gives:
      the colour of the entry found, or `COLOR_TEXT` when none is. */
  lemma LegendColorIsFind(relationship: string)
    ensures FindEntry(LegendData, Normalize(relationship)).None? ==> LegendColor(relationship) == COLOR_TEXT
    ensures FindEntry(LegendData, Normalize(relationship)).Some? ==>
              LegendColor(relationship) == FindEntry(LegendData, Normalize(relationship)).value.color
  {
    LegendKeysSpec();
    var key := Normalize(relationship);
    var r := FindEntry(LegendData, key);
    if r.Some? {
      var i :| 0 <= i < |LegendData| && LegendData[i] == r.value && Normalize(LegendData[i].text) == key;
      assert LegendKeys[i] == key;
    } else {
      assert forall k :: 0 <= k < |LegendKeys| ==> LegendKeys[k] != key;
    }
  }

  /** The layer lookup gives what the source's `findIndex` over the stripped
      layer names gives. */
  lemma LayerIndexIsFindIndex(relationship: string)
    ensures LayerIndex(relationship) == FindLayer(LayerOrder, Strip(relationship))
  {
    LayerKeysSpec();
    LayerKeysDistinct();
    var key := Strip(relationship);
    var r := FindLayer(LayerOrder, key);
    if r >= 0 {
      assert LayerKeys[r] == key;
    } else {
      assert forall k :: 0 <= k < |LayerKeys| ==> LayerKeys[k] != key;
    }
  }

  /** Every layer name maps back to its own position. */
  lemma LayerIndexOfName(k: int)
    requires 0 <= k < |LayerOrder|
    ensures LayerIndex(LayerOrder[k]) == k
  {
    LayerKeysSpec();
    LayerKeysDistinct();
  }

  /** The colour lookup ignores case: a lower-case "principal" gets the
      principal colour. */
  lemma LowerCasePrincipalHasColor()
    ensures LegendColor("principal") == "#007BFF"
  {
    LowerUnchanged("principal");
    StripLowerPrincipal();
    assert Normalize("principal") == LegendKeys[0];
  }

  /** The layer lookup is case-sensitive: a lower-case "principal" gets no layer,
      while "Principal" gets layer 2. */
  lemma LowerCasePrincipalHasNoLayer()
    ensures LayerIndex("principal") == -1
    ensures LayerIndex("Principal") == 2
  {
    StripLowerPrincipal();
    assert "principal" !in LayerKeys;
    LayerIndexOfName(2);
  }

  lemma LegendKeysDistinct()
    ensures forall i, j :: 0 <= i < j < |LegendKeys| ==> LegendKeys[i] != LegendKeys[j]
  {
  }

  /** The layer keys are pairwise different. */
  lemma LayerKeysDistinct()
    ensures forall i, j :: 0 <= i < j < |LayerKeys| ==> LayerKeys[i] != LayerKeys[j]
  {
  }

  /** The legend keys are the legend texts lower-cased and stripped. */
  lemma LegendKeysSpec()
    ensures forall k :: 0 <= k < |LegendData| ==> Normalize(LegendData[k].text) == LegendKeys[k]
  {
    forall k | 0 <= k < |LegendData| ensures Normalize(LegendData[k].text) == LegendKeys[k] {
      if k == 0 {
        LowerPrincipal(); StripLowerPrincipal();
      } else if k == 1 {
        LowerConyuge(); StripLowerConyuge();
      } else if k == 2 {
        LowerHijo(); StripLowerHijo();
      } else if k == 3 {
        LowerHermano(); StripLowerHermano();
      } else if k == 4 {
        LowerPadre(); StripLowerPadre();
      } else if k == 5 {
        LowerAbuelo(); StripLowerAbuelo();
      } else if k == 6 {
        LowerTio(); StripLowerTio();
      } else if k == 7 {
        LowerPrimo(); StripLowerPrimo();
      }
    }
  }

  /** The layer keys are the layer names stripped. */
  lemma LayerKeysSpec()
    ensures forall k :: 0 <= k < |LayerOrder| ==> Strip(LayerOrder[k]) == LayerKeys[k]
  {
    forall k | 0 <= k < |LayerOrder| ensures Strip(LayerOrder[k]) == LayerKeys[k] {
      if k == 0 {
        StripAbuelo();
      } else if k == 1 {
        StripPadre();
      } else if k == 2 {
        StripPrincipal();
      } else if k == 3 {
        StripConyuge();
      } else if k == 4 {
        StripHermano();
      } else if k == 5 {
        StripHijo();
      } else if k == 6 {
        StripTio();
      } else if k == 7 {
        StripPrimo();
      }
    }
  }

  // Evaluation of the two tables, one entry at a time (the solver evaluates
  // a short literal cheaply, all of them at once not at all).

  lemma LowerPrincipal() ensures Lower("Principal") == "principal" {}
  lemma LowerConyuge() ensures Lower("Cónyuge/Pareja") == "cónyuge/pareja" {}
  lemma LowerHijo() ensures Lower("Hijo/Hija") == "hijo/hija" {}
  lemma LowerHermano() ensures Lower("Hermano/Hermana") == "hermano/hermana" {}
  lemma LowerPadre() ensures Lower("Padre/Madre") == "padre/madre" {}
  lemma LowerAbuelo() ensures Lower("Abuelo/Abuela") == "abuelo/abuela" {}
  lemma LowerTio() ensures Lower("Tío/Tía") == "tío/tía" {}
  lemma LowerPrimo() ensures Lower("Primo/Prima") == "primo/prima" {}
  lemma StripLowerPrincipal() ensures Strip("principal") == "principal" {
    assert StripFrom("principal", 6) == "pal";
    assert StripFrom("principal", 3) == "ncipal";
  }
  lemma StripLowerConyuge() ensures Strip("cónyuge/pareja") == "cnyugepareja" {
    assert StripFrom("cónyuge/pareja", 11) == "eja";
    assert StripFrom("cónyuge/pareja", 8) == "pareja";
    assert StripFrom("cónyuge/pareja", 5) == "gepareja";
    assert StripFrom("cónyuge/pareja", 2) == "nyugepareja";
  }
  lemma StripLowerHijo() ensures Strip("hijo/hija") == "hijohija" {
    assert StripFrom("hijo/hija", 6) == "ija";
    assert StripFrom("hijo/hija", 3) == "ohija";
  }
  lemma StripLowerHermano() ensures Strip("hermano/hermana") == "hermanohermana" {
    assert StripFrom("hermano/hermana", 12) == "ana";
    assert StripFrom("hermano/hermana", 9) == "ermana";
    assert StripFrom("hermano/hermana", 6) == "ohermana";
    assert StripFrom("hermano/hermana", 3) == "manohermana";
  }
  lemma StripLowerPadre() ensures Strip("padre/madre") == "padremadre" {
    assert StripFrom("padre/madre", 8) == "dre";
    assert StripFrom("padre/madre", 5) == "madre";
    assert StripFrom("padre/madre", 2) == "dremadre";
  }
  lemma StripLowerAbuelo() ensures Strip("abuelo/abuela") == "abueloabuela" {
    assert StripFrom("abuelo/abuela", 10) == "ela";
    assert StripFrom("abuelo/abuela", 7) == "abuela";
    assert StripFrom("abuelo/abuela", 4) == "loabuela";
    assert StripFrom("abuelo/abuela", 1) == "bueloabuela";
  }
  lemma StripLowerTio() ensures Strip("tío/tía") == "tota" {
    assert StripFrom("tío/tía", 4) == "ta";
    assert StripFrom("tío/tía", 1) == "ota";
  }
  lemma StripLowerPrimo() ensures Strip("primo/prima") == "primoprima" {
    assert StripFrom("primo/prima", 8) == "ima";
    assert StripFrom("primo/prima", 5) == "prima";
    assert StripFrom("primo/prima", 2) == "imoprima";
  }
  lemma StripPrincipal() ensures Strip("Principal") == "Principal" {
    assert StripFrom("Principal", 6) == "pal";
    assert StripFrom("Principal", 3) == "ncipal";
  }
  lemma StripConyuge() ensures Strip("Cónyuge/Pareja") == "CnyugePareja" {
    assert StripFrom("Cónyuge/Pareja", 11) == "eja";
    assert StripFrom("Cónyuge/Pareja", 8) == "Pareja";
    assert StripFrom("Cónyuge/Pareja", 5) == "gePareja";
    assert StripFrom("Cónyuge/Pareja", 2) == "nyugePareja";
  }
  lemma StripHijo() ensures Strip("Hijo/Hija") == "HijoHija" {
    assert StripFrom("Hijo/Hija", 6) == "ija";
    assert StripFrom("Hijo/Hija", 3) == "oHija";
  }
  lemma StripHermano() ensures Strip("Hermano/Hermana") == "HermanoHermana" {
    assert StripFrom("Hermano/Hermana", 12) == "ana";
    assert StripFrom("Hermano/Hermana", 9) == "ermana";
    assert StripFrom("Hermano/Hermana", 6) == "oHermana";
    assert StripFrom("Hermano/Hermana", 3) == "manoHermana";
  }
  lemma StripPadre() ensures Strip("Padre/Madre") == "PadreMadre" {
    assert StripFrom("Padre/Madre", 8) == "dre";
    assert StripFrom("Padre/Madre", 5) == "Madre";
    assert StripFrom("Padre/Madre", 2) == "dreMadre";
  }
  lemma StripAbuelo() ensures Strip("Abuelo/Abuela") == "AbueloAbuela" {
    assert StripFrom("Abuelo/Abuela", 10) == "ela";
    assert StripFrom("Abuelo/Abuela", 7) == "Abuela";
    assert StripFrom("Abuelo/Abuela", 4) == "loAbuela";
    assert StripFrom("Abuelo/Abuela", 1) == "bueloAbuela";
  }
  lemma StripTio() ensures Strip("Tío/Tía") == "ToTa" {
    assert StripFrom("Tío/Tía", 4) == "Ta";
    assert StripFrom("Tío/Tía", 1) == "oTa";
  }
  lemma StripPrimo() ensures Strip("Primo/Prima") == "PrimoPrima" {
    assert StripFrom("Primo/Prima", 8) == "ima";
    assert StripFrom("Primo/Prima", 5) == "Prima";
    assert StripFrom("Primo/Prima", 2) == "imoPrima";
  }
}
