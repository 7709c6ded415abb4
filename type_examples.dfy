/**
 * Worked cases of the type normalizer in which the order of the table
 * decides between rules that both fire.
 */
module TypeExamples {
  import opened Text
  import opened TypePatterns
  import opened TypeNormalizer

  /** The table opens with the Airbus narrowbody, Airbus widebody and Boeing 737 families. */
  lemma TableStart()
    ensures Rules == AirbusNarrowbody + (AirbusWidebody + (Boeing737 + FlattenFrom(Families, 3)))
    ensures |AirbusNarrowbody| == 9 && |AirbusWidebody| == 13 && |Boeing737| == 15
  {
    assert Families[0] == AirbusNarrowbody && Families[1] == AirbusWidebody && Families[2] == Boeing737;
    assert FlattenFrom(Families, 0) == Families[0] + FlattenFrom(Families, 1);
    assert FlattenFrom(Families, 1) == Families[1] + FlattenFrom(Families, 2);
    assert FlattenFrom(Families, 2) == Families[2] + FlattenFrom(Families, 3);
  }

  /** Where the first three families sit in the table. */
  lemma TableIndices()
    ensures |Rules| > 37
    ensures forall i :: 0 <= i < 9 ==> Rules[i] == AirbusNarrowbody[i]
    ensures forall i :: 9 <= i < 22 ==> Rules[i] == AirbusWidebody[i - 9]
    ensures forall i :: 22 <= i < 37 ==> Rules[i] == Boeing737[i - 22]
  {
    TableStart();
    assert |FlattenFrom(Families, 3)| > 0 by {
      assert FlattenFrom(Families, 3) == Families[3] + FlattenFrom(Families, 4);
    }
  }

  /** A rule each of whose alternatives needs a literal the upper-cased subject lacks does not fire. */
  lemma Excluded(r: Rule, s: string, u: string)
    requires Upper(s) == u && PatExcluded(r.pattern, u, 0)
    ensures !Fires(r, s)
  {
    ExcludedRuleSilent(r.pattern, u, 0);
    FiresIffSearch(r, s);
  }

  lemma Loud(r: Rule, s: string, u: string)
    requires Upper(s) == u && SearchAny(r.pattern, u, 0)
    ensures Fires(r, s)
  {
    FiresIffSearch(r, s);
  }

  /** A type field the scan sends to rule `k` displays as that rule's name, whatever the manufacturer. */
  lemma Classified(mfr: Option<string>, s: string, k: nat, name: string)
    requires s != "" && k < |Rules| && FirstMatch(Rules, s, 0) == Some(k)
    requires Rules[k].mfrOverride + " " + Rules[k].canonical == name
    ensures NormalizeAircraftType(mfr, Some(s), None) == name
  {
    MatchedType(mfr, Some(s), None, k);
  }

  lemma NarrowbodyExcludedOn737From0()
    ensures forall i :: 0 <= i < 3 ==> PatExcluded(AirbusNarrowbody[i].pattern, "737-8H4", 0)
  {
    assert PatExcluded(AirbusNarrowbody[0].pattern, "737-8H4", 0);
    assert PatExcluded(AirbusNarrowbody[1].pattern, "737-8H4", 0);
    assert PatExcluded(AirbusNarrowbody[2].pattern, "737-8H4", 0);
  }

  lemma NarrowbodyExcludedOn737From3()
    ensures forall i :: 3 <= i < 6 ==> PatExcluded(AirbusNarrowbody[i].pattern, "737-8H4", 0)
  {
    assert PatExcluded(AirbusNarrowbody[3].pattern, "737-8H4", 0);
    assert PatExcluded(AirbusNarrowbody[4].pattern, "737-8H4", 0);
    assert PatExcluded(AirbusNarrowbody[5].pattern, "737-8H4", 0);
  }

  lemma NarrowbodyExcludedOn737From6()
    ensures forall i :: 6 <= i < 9 ==> PatExcluded(AirbusNarrowbody[i].pattern, "737-8H4", 0)
  {
    assert PatExcluded(AirbusNarrowbody[6].pattern, "737-8H4", 0);
    assert PatExcluded(AirbusNarrowbody[7].pattern, "737-8H4", 0);
    assert PatExcluded(AirbusNarrowbody[8].pattern, "737-8H4", 0);
  }

  lemma NarrowbodyQuietOn737()
    ensures forall i :: 0 <= i < 9 ==> !Fires(AirbusNarrowbody[i], "737-8H4")
  {
    var s := "737-8H4";
    assert Upper(s) == s;
    NarrowbodyExcludedOn737From0();
    NarrowbodyExcludedOn737From3();
    NarrowbodyExcludedOn737From6();
    forall i | 0 <= i < 9 ensures !Fires(AirbusNarrowbody[i], s) {
      Excluded(AirbusNarrowbody[i], s, s);
    }
  }

  lemma WidebodyExcludedOn737From0()
    ensures forall i :: 0 <= i < 3 ==> PatExcluded(AirbusWidebody[i].pattern, "737-8H4", 0)
  {
    assert PatExcluded(AirbusWidebody[0].pattern, "737-8H4", 0);
    assert PatExcluded(AirbusWidebody[1].pattern, "737-8H4", 0);
    assert PatExcluded(AirbusWidebody[2].pattern, "737-8H4", 0);
  }

  lemma WidebodyExcludedOn737From3()
    ensures forall i :: 3 <= i < 6 ==> PatExcluded(AirbusWidebody[i].pattern, "737-8H4", 0)
  {
    assert PatExcluded(AirbusWidebody[3].pattern, "737-8H4", 0);
    assert PatExcluded(AirbusWidebody[4].pattern, "737-8H4", 0);
    assert PatExcluded(AirbusWidebody[5].pattern, "737-8H4", 0);
  }

  lemma WidebodyExcludedOn737From6()
    ensures forall i :: 6 <= i < 9 ==> PatExcluded(AirbusWidebody[i].pattern, "737-8H4", 0)
  {
    assert PatExcluded(AirbusWidebody[6].pattern, "737-8H4", 0);
    assert PatExcluded(AirbusWidebody[7].pattern, "737-8H4", 0);
    assert PatExcluded(AirbusWidebody[8].pattern, "737-8H4", 0);
  }

  lemma WidebodyExcludedOn737From9()
    ensures forall i :: 9 <= i < 12 ==> PatExcluded(AirbusWidebody[i].pattern, "737-8H4", 0)
  {
    assert PatExcluded(AirbusWidebody[9].pattern, "737-8H4", 0);
    assert PatExcluded(AirbusWidebody[10].pattern, "737-8H4", 0);
    assert PatExcluded(AirbusWidebody[11].pattern, "737-8H4", 0);
  }

  lemma WidebodyExcludedOn737From12()
    ensures forall i :: 12 <= i < 13 ==> PatExcluded(AirbusWidebody[i].pattern, "737-8H4", 0)
  {
    assert PatExcluded(AirbusWidebody[12].pattern, "737-8H4", 0);
  }

  lemma WidebodyQuietOn737()
    ensures forall i :: 0 <= i < 13 ==> !Fires(AirbusWidebody[i], "737-8H4")
  {
    var s := "737-8H4";
    assert Upper(s) == s;
    WidebodyExcludedOn737From0();
    WidebodyExcludedOn737From3();
    WidebodyExcludedOn737From6();
    WidebodyExcludedOn737From9();
    WidebodyExcludedOn737From12();
    forall i | 0 <= i < 13 ensures !Fires(AirbusWidebody[i], s) {
      Excluded(AirbusWidebody[i], s, s);
    }
  }

  lemma Boeing737800Fire()
    ensures SearchAny(Boeing737[1].pattern, "737-8H4", 0)
  {
    assert MatchAt(Boeing737[1].pattern[0], 0, "737-8H4", 0, false);
    assert SearchFrom(Boeing737[1].pattern[0], "737-8H4", 0);
  }

  lemma Boeing737Fire()
    ensures SearchAny(Boeing737[14].pattern, "737-8H4", 0)
  {
  }

  lemma Boeing737800Name()
    ensures Boeing737[1].mfrOverride + " " + Boeing737[1].canonical == "Boeing 737-800"
  {
  }

  lemma Boeing737FirstExcluded()
    ensures PatExcluded(Boeing737[0].pattern, "737-8H4", 0)
  {
  }

  /** No rule before the 737-800 rule fires on "737-8H4". */
  lemma QuietBefore737800()
    ensures 23 < |Rules|
    ensures forall i :: 0 <= i < 23 ==> !Fires(Rules[i], "737-8H4")
  {
    var s := "737-8H4";
    assert Upper(s) == s;
    TableIndices();
    NarrowbodyQuietOn737();
    WidebodyQuietOn737();
    Boeing737FirstExcluded();
    Excluded(Boeing737[0], s, s);
    forall i | 0 <= i < 23 ensures !Fires(Rules[i], s) {
      if i < 9 {
        assert Rules[i] == AirbusNarrowbody[i];
      } else if i < 22 {
        assert Rules[i] == AirbusWidebody[i - 9];
      } else {
        assert Rules[i] == Boeing737[0];
      }
    }
  }

  lemma ScanOn737()
    ensures FirstMatch(Rules, "737-8H4", 0) == Some(23) && Rules[23] == Boeing737[1]
    ensures Fires(Boeing737[1], "737-8H4") && Fires(Boeing737[14], "737-8H4")
  {
    var s := "737-8H4";
    assert Upper(s) == s;
    TableIndices();
    QuietBefore737800();
    Boeing737800Fire();
    Boeing737Fire();
    Loud(Boeing737[1], s, s);
    Loud(Boeing737[14], s, s);
    FirstMatchIs(Rules, s, 23);
  }

  /**
   * "737-8H4" (a 737-800 with a customer code) is classified by the 737-800
   * rule, which comes before the generic 737 rule that fires on it too,
   * whatever the manufacturer field says ("THE BOEING COMPANY" included).
   */
  lemma Boeing737CustomerCode(mfr: Option<string>)
    ensures Fires(Boeing737[1], "737-8H4") && Fires(Boeing737[14], "737-8H4")
    ensures NormalizeAircraftType(mfr, Some("737-8H4"), None) == "Boeing 737-800"
  {
    ScanOn737();
    Boeing737800Name();
    Classified(mfr, "737-8H4", 23, "Boeing 737-800");
  }

  lemma NarrowbodyExcludedOnA320From0()
    ensures forall i :: 0 <= i < 3 ==> PatExcluded(AirbusNarrowbody[i].pattern, "A320-251N", 0)
  {
    assert PatExcluded(AirbusNarrowbody[0].pattern, "A320-251N", 0);
    assert PatExcluded(AirbusNarrowbody[1].pattern, "A320-251N", 0);
    assert PatExcluded(AirbusNarrowbody[2].pattern, "A320-251N", 0);
  }

  lemma NarrowbodyQuietOnA320()
    ensures forall i :: 0 <= i < 3 ==> !Fires(AirbusNarrowbody[i], "A320-251N")
  {
    var s := "A320-251N";
    assert Upper(s) == s;
    NarrowbodyExcludedOnA320From0();
    forall i | 0 <= i < 3 ensures !Fires(AirbusNarrowbody[i], s) {
      Excluded(AirbusNarrowbody[i], s, s);
    }
  }

  lemma A320NeoFire()
    ensures SearchAny(AirbusNarrowbody[3].pattern, "A320-251N", 0)
  {
    // "A", no space, "320", then `.*` over "-251", "N", no "EO", and `.*` over nothing
    var alt := AirbusNarrowbody[3].pattern[0];
    var u := "A320-251N";
    assert MatchAt(alt, 7, u, 9, false);
    assert MatchAt(alt, 5, u, 9, false);
    assert MatchAt(alt, 4, u, 8, false);
    assert MatchAt(alt, 3, u, 8, false);
    assert MatchAt(alt, 3, u, 7, false);
    assert MatchAt(alt, 3, u, 6, false);
    assert MatchAt(alt, 3, u, 5, false);
    assert MatchAt(alt, 3, u, 4, false);
    assert MatchAt(alt, 2, u, 1, false);
    assert MatchAt(alt, 0, u, 0, false);
    assert SearchFrom(alt, u, 0);
  }

  lemma A320Fire()
    ensures SearchAny(AirbusNarrowbody[4].pattern, "A320-251N", 0)
  {
  }

  lemma A320NeoName()
    ensures AirbusNarrowbody[3].mfrOverride + " " + AirbusNarrowbody[3].canonical == "Airbus A320neo"
  {
  }

  lemma ScanOnA320()
    ensures FirstMatch(Rules, "A320-251N", 0) == Some(3) && Rules[3] == AirbusNarrowbody[3]
    ensures Fires(AirbusNarrowbody[3], "A320-251N") && Fires(AirbusNarrowbody[4], "A320-251N")
  {
    var s := "A320-251N";
    assert Upper(s) == s;
    TableIndices();
    NarrowbodyQuietOnA320();
    A320NeoFire();
    A320Fire();
    Loud(AirbusNarrowbody[3], s, s);
    Loud(AirbusNarrowbody[4], s, s);
    FirstMatchIs(Rules, s, 3);
  }

  /** "A320-251N" is an A320neo, although the plain A320 rule after it fires on it too, whatever the manufacturer. */
  lemma A320NeoCustomerCode(mfr: Option<string>)
    ensures Fires(AirbusNarrowbody[3], "A320-251N") && Fires(AirbusNarrowbody[4], "A320-251N")
    ensures NormalizeAircraftType(mfr, Some("A320-251N"), None) == "Airbus A320neo"
  {
    ScanOnA320();
    A320NeoName();
    Classified(mfr, "A320-251N", 3, "Airbus A320neo");
  }

  lemma NarrowbodyExcludedOnA321From0()
    ensures forall i :: 0 <= i < 3 ==> PatExcluded(AirbusNarrowbody[i].pattern, "A321XLR", 0)
  {
    assert PatExcluded(AirbusNarrowbody[0].pattern, "A321XLR", 0);
    assert PatExcluded(AirbusNarrowbody[1].pattern, "A321XLR", 0);
    assert PatExcluded(AirbusNarrowbody[2].pattern, "A321XLR", 0);
  }

  lemma NarrowbodyExcludedOnA321From3()
    ensures forall i :: 3 <= i < 5 ==> PatExcluded(AirbusNarrowbody[i].pattern, "A321XLR", 0)
  {
    assert PatExcluded(AirbusNarrowbody[3].pattern, "A321XLR", 0);
    assert PatExcluded(AirbusNarrowbody[4].pattern, "A321XLR", 0);
  }

  lemma NarrowbodyQuietOnA321()
    ensures forall i :: 0 <= i < 5 ==> !Fires(AirbusNarrowbody[i], "A321XLR")
  {
    var s := "A321XLR";
    assert Upper(s) == s;
    NarrowbodyExcludedOnA321From0();
    NarrowbodyExcludedOnA321From3();
    forall i | 0 <= i < 5 ensures !Fires(AirbusNarrowbody[i], s) {
      Excluded(AirbusNarrowbody[i], s, s);
    }
  }

  lemma A321XlrFire()
    ensures SearchAny(AirbusNarrowbody[5].pattern, "A321XLR", 0)
  {
  }

  lemma A321LrFire()
    ensures SearchAny(AirbusNarrowbody[6].pattern, "A321XLR", 0)
  {
  }

  lemma A321XlrName()
    ensures AirbusNarrowbody[5].mfrOverride + " " + AirbusNarrowbody[5].canonical == "Airbus A321XLR"
  {
  }

  lemma ScanOnA321()
    ensures FirstMatch(Rules, "A321XLR", 0) == Some(5) && Rules[5] == AirbusNarrowbody[5]
    ensures Fires(AirbusNarrowbody[5], "A321XLR") && Fires(AirbusNarrowbody[6], "A321XLR")
  {
    var s := "A321XLR";
    assert Upper(s) == s;
    TableIndices();
    NarrowbodyQuietOnA321();
    A321XlrFire();
    A321LrFire();
    Loud(AirbusNarrowbody[5], s, s);
    Loud(AirbusNarrowbody[6], s, s);
    FirstMatchIs(Rules, s, 5);
  }

  /** "A321XLR" is an A321XLR, although the A321LR rule after it fires on it too, whatever the manufacturer. */
  lemma A321XlrBeforeLr(mfr: Option<string>)
    ensures Fires(AirbusNarrowbody[5], "A321XLR") && Fires(AirbusNarrowbody[6], "A321XLR")
    ensures NormalizeAircraftType(mfr, Some("A321XLR"), None) == "Airbus A321XLR"
  {
    ScanOnA321();
    A321XlrName();
    Classified(mfr, "A321XLR", 5, "Airbus A321XLR");
  }
}
