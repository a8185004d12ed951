/**
 * The two tables of model/cleanMerge.py, `field_map` and
 * `duplicate_fields`, and the fact the renaming relies on: the names the
 * pairs that are not skipped map to are all different.
 */
module CleanMergeFields {
  /** `field_map`, in the order its items are iterated. */
  const FieldMap: seq<(string, string)> := [
    ("Ticanje", "Vessel Code"),
    ("ImeLadje", "Vessel Name"),
    ("DolzinaLadje", "Vessel Length"),
    ("TicanjeStatus", "Vessel Status"),
    ("DatumPrihoda", "Vessel Arrival Date"),
    ("CasPrihoda", "Vessel ETA"),
    ("TovorTeza", "Cargo Weight"),
    ("Tovor", "Cargo Type"),
    ("GazLadje", "Draft"),
    ("BrutoTeza", "Total Vessel Weight"),
    ("oznaka", "Berth Code/Label"),
    ("Naziv1", "Berth Description"),
    ("sifraticanja", "Vessel Code"),
    ("TrajanjePriveza", "Berthing Time"),
    ("CasPilotaze", "Date and Time of Action"),
    ("Akcija", "Action"),
    ("ugrez", "Draft"),
    ("dolzina", "Vessel Length"),
    ("brutoregistersketone", "Total Vessel Weight"),
    ("VezNaziv", "Berth Description"),
    ("LadjaTipOznaka", "Label"),
    ("LadjaTipNaziv", "Vessel type for cargo"),
    ("VezSifra", "Berth Code/Label")
  ]

  /** `duplicate_fields`: source fields that are skipped. */
  const Duplicates: set<string> :=
    {"sifraticanja", "LadjaIme", "ugrez", "dolzina", "brutoregistersketone", "VezNaziv", "VezSifra"}

  /** The new names the first `n` pairs can produce: the targets of those that are not skipped. */
  function Targets(pairs: seq<(string, string)>, n: nat): set<string>
    requires n <= |pairs|
  {
    if n == 0 then {}
    else Targets(pairs, n - 1) + (if pairs[n - 1].0 in Duplicates then {} else {pairs[n - 1].1})
  }

  /** None of the first `n` pairs that are not skipped has target `t`. */
  predicate NotTarget(pairs: seq<(string, string)>, n: nat, t: string)
    requires n <= |pairs|
  {
    n == 0 || (NotTarget(pairs, n - 1, t) && (pairs[n - 1].0 in Duplicates || pairs[n - 1].1 != t))
  }

  /** No two of the first `n` pairs that are not skipped share a target. */
  predicate DistinctTargets(pairs: seq<(string, string)>, n: nat)
    requires n <= |pairs|
  {
    n == 0 ||
    (&& DistinctTargets(pairs, n - 1)
     && (pairs[n - 1].0 in Duplicates || NotTarget(pairs, n - 1, pairs[n - 1].1)))
  }

  lemma {:induction false} TargetsIndex(pairs: seq<(string, string)>, n: nat, i: nat)
    requires n <= |pairs| && i < n && pairs[i].0 !in Duplicates
    ensures pairs[i].1 in Targets(pairs, n)
  {
    if i < n - 1 {
      TargetsIndex(pairs, n - 1, i);
    }
  }

  lemma {:induction false} NotTargetIsAbsent(pairs: seq<(string, string)>, n: nat, t: string)
    requires n <= |pairs|
    ensures NotTarget(pairs, n, t) <==> t !in Targets(pairs, n)
  {
    if n > 0 {
      NotTargetIsAbsent(pairs, n - 1, t);
    }
  }

  /** The recursive statement of distinctness, pair by pair. */
  lemma {:induction false} DistinctPairwise(pairs: seq<(string, string)>, n: nat)
    requires n <= |pairs| && DistinctTargets(pairs, n)
    ensures forall i, j :: 0 <= i < j < n && pairs[i].0 !in Duplicates && pairs[j].0 !in Duplicates ==>
              pairs[i].1 != pairs[j].1
  {
    if n > 0 {
      DistinctPairwise(pairs, n - 1);
      if pairs[n - 1].0 !in Duplicates {
        NotTargetIsAbsent(pairs, n - 1, pairs[n - 1].1);
        forall i | 0 <= i < n - 1 && pairs[i].0 !in Duplicates
          ensures pairs[i].1 != pairs[n - 1].1
        {
          TargetsIndex(pairs, n - 1, i);
        }
      }
    }
  }

  // The facts below about the 23-pair literal are split into small groups:
  // one lemma unfolding the whole table and every NotTarget chain at once
  // asks the solver for more than a single proof obligation may use, while
  // each group stays cheap and FieldMapDistinct only combines them.

  /** Pairs 0 to 3 of the table, read off the literal. */
  lemma FieldMapEntries0To3()
    ensures FieldMap[0] == ("Ticanje", "Vessel Code")
    ensures FieldMap[1] == ("ImeLadje", "Vessel Name")
    ensures FieldMap[2] == ("DolzinaLadje", "Vessel Length")
    ensures FieldMap[3] == ("TicanjeStatus", "Vessel Status")
  {
  }

  /** Pairs 4 to 7 of the table, read off the literal. */
  lemma FieldMapEntries4To7()
    ensures FieldMap[4] == ("DatumPrihoda", "Vessel Arrival Date")
    ensures FieldMap[5] == ("CasPrihoda", "Vessel ETA")
    ensures FieldMap[6] == ("TovorTeza", "Cargo Weight")
    ensures FieldMap[7] == ("Tovor", "Cargo Type")
  {
  }

  /** Pairs 8 to 11 of the table, read off the literal. */
  lemma FieldMapEntries8To11()
    ensures FieldMap[8] == ("GazLadje", "Draft")
    ensures FieldMap[9] == ("BrutoTeza", "Total Vessel Weight")
    ensures FieldMap[10] == ("oznaka", "Berth Code/Label")
    ensures FieldMap[11] == ("Naziv1", "Berth Description")
  {
  }

  /** Pairs 12 to 15 of the table, read off the literal. */
  lemma FieldMapEntries12To15()
    ensures FieldMap[12] == ("sifraticanja", "Vessel Code")
    ensures FieldMap[13] == ("TrajanjePriveza", "Berthing Time")
    ensures FieldMap[14] == ("CasPilotaze", "Date and Time of Action")
    ensures FieldMap[15] == ("Akcija", "Action")
  {
  }

  /** Pairs 16 to 19 of the table, read off the literal. */
  lemma FieldMapEntries16To19()
    ensures FieldMap[16] == ("ugrez", "Draft")
    ensures FieldMap[17] == ("dolzina", "Vessel Length")
    ensures FieldMap[18] == ("brutoregistersketone", "Total Vessel Weight")
    ensures FieldMap[19] == ("VezNaziv", "Berth Description")
  {
  }

  /** Pairs 20 to 22 of the table, read off the literal. */
  lemma FieldMapEntries20To22()
    ensures FieldMap[20] == ("LadjaTipOznaka", "Label")
    ensures FieldMap[21] == ("LadjaTipNaziv", "Vessel type for cargo")
    ensures FieldMap[22] == ("VezSifra", "Berth Code/Label")
  {
  }

  /** Which source fields of the table are skipped. */
  lemma SkippedSources()
    ensures "Ticanje" !in Duplicates
    ensures "ImeLadje" !in Duplicates
    ensures "DolzinaLadje" !in Duplicates
    ensures "TicanjeStatus" !in Duplicates
    ensures "DatumPrihoda" !in Duplicates
    ensures "CasPrihoda" !in Duplicates
    ensures "TovorTeza" !in Duplicates
    ensures "Tovor" !in Duplicates
    ensures "GazLadje" !in Duplicates
    ensures "BrutoTeza" !in Duplicates
    ensures "oznaka" !in Duplicates
    ensures "Naziv1" !in Duplicates
    ensures "sifraticanja" in Duplicates
    ensures "TrajanjePriveza" !in Duplicates
    ensures "CasPilotaze" !in Duplicates
    ensures "Akcija" !in Duplicates
    ensures "ugrez" in Duplicates
    ensures "dolzina" in Duplicates
    ensures "brutoregistersketone" in Duplicates
    ensures "VezNaziv" in Duplicates
    ensures "LadjaTipOznaka" !in Duplicates
    ensures "LadjaTipNaziv" !in Duplicates
    ensures "VezSifra" in Duplicates
  {
  }

  lemma FieldMapEntries()
    ensures |FieldMap| == 23
    ensures FieldMap[0] == ("Ticanje", "Vessel Code")
    ensures FieldMap[1] == ("ImeLadje", "Vessel Name")
    ensures FieldMap[2] == ("DolzinaLadje", "Vessel Length")
    ensures FieldMap[3] == ("TicanjeStatus", "Vessel Status")
    ensures FieldMap[4] == ("DatumPrihoda", "Vessel Arrival Date")
    ensures FieldMap[5] == ("CasPrihoda", "Vessel ETA")
    ensures FieldMap[6] == ("TovorTeza", "Cargo Weight")
    ensures FieldMap[7] == ("Tovor", "Cargo Type")
    ensures FieldMap[8] == ("GazLadje", "Draft")
    ensures FieldMap[9] == ("BrutoTeza", "Total Vessel Weight")
    ensures FieldMap[10] == ("oznaka", "Berth Code/Label")
    ensures FieldMap[11] == ("Naziv1", "Berth Description")
    ensures FieldMap[12] == ("sifraticanja", "Vessel Code")
    ensures FieldMap[13] == ("TrajanjePriveza", "Berthing Time")
    ensures FieldMap[14] == ("CasPilotaze", "Date and Time of Action")
    ensures FieldMap[15] == ("Akcija", "Action")
    ensures FieldMap[16] == ("ugrez", "Draft")
    ensures FieldMap[17] == ("dolzina", "Vessel Length")
    ensures FieldMap[18] == ("brutoregistersketone", "Total Vessel Weight")
    ensures FieldMap[19] == ("VezNaziv", "Berth Description")
    ensures FieldMap[20] == ("LadjaTipOznaka", "Label")
    ensures FieldMap[21] == ("LadjaTipNaziv", "Vessel type for cargo")
    ensures FieldMap[22] == ("VezSifra", "Berth Code/Label")
  {
    FieldMapEntries0To3();
    FieldMapEntries4To7();
    FieldMapEntries8To11();
    FieldMapEntries12To15();
    FieldMapEntries16To19();
    FieldMapEntries20To22();
  }

  /** Each of pairs 1, 2, 3, 4, 5, 6, 7 has a target no earlier kept pair has. */
  lemma FreshTargets1To7()
    ensures NotTarget(FieldMap, 1, "Vessel Name")
    ensures NotTarget(FieldMap, 2, "Vessel Length")
    ensures NotTarget(FieldMap, 3, "Vessel Status")
    ensures NotTarget(FieldMap, 4, "Vessel Arrival Date")
    ensures NotTarget(FieldMap, 5, "Vessel ETA")
    ensures NotTarget(FieldMap, 6, "Cargo Weight")
    ensures NotTarget(FieldMap, 7, "Cargo Type")
  {
    FieldMapEntries();
    SkippedSources();
    assert NotTarget(FieldMap, 1, "Vessel Name") by {
    }
    assert NotTarget(FieldMap, 2, "Vessel Length") by {
      assert NotTarget(FieldMap, 1, "Vessel Length");
    }
    assert NotTarget(FieldMap, 3, "Vessel Status") by {
      assert NotTarget(FieldMap, 1, "Vessel Status");
      assert NotTarget(FieldMap, 2, "Vessel Status");
    }
    assert NotTarget(FieldMap, 4, "Vessel Arrival Date") by {
      assert NotTarget(FieldMap, 1, "Vessel Arrival Date");
      assert NotTarget(FieldMap, 2, "Vessel Arrival Date");
      assert NotTarget(FieldMap, 3, "Vessel Arrival Date");
    }
    assert NotTarget(FieldMap, 5, "Vessel ETA") by {
      assert NotTarget(FieldMap, 1, "Vessel ETA");
      assert NotTarget(FieldMap, 2, "Vessel ETA");
      assert NotTarget(FieldMap, 3, "Vessel ETA");
      assert NotTarget(FieldMap, 4, "Vessel ETA");
    }
    assert NotTarget(FieldMap, 6, "Cargo Weight") by {
      assert NotTarget(FieldMap, 1, "Cargo Weight");
      assert NotTarget(FieldMap, 2, "Cargo Weight");
      assert NotTarget(FieldMap, 3, "Cargo Weight");
      assert NotTarget(FieldMap, 4, "Cargo Weight");
      assert NotTarget(FieldMap, 5, "Cargo Weight");
    }
    assert NotTarget(FieldMap, 7, "Cargo Type") by {
      assert NotTarget(FieldMap, 1, "Cargo Type");
      assert NotTarget(FieldMap, 2, "Cargo Type");
      assert NotTarget(FieldMap, 3, "Cargo Type");
      assert NotTarget(FieldMap, 4, "Cargo Type");
      assert NotTarget(FieldMap, 5, "Cargo Type");
      assert NotTarget(FieldMap, 6, "Cargo Type");
    }
  }

  /** Each of pairs 8, 9, 10 has a target no earlier kept pair has. */
  lemma FreshTargets8To10()
    ensures NotTarget(FieldMap, 8, "Draft")
    ensures NotTarget(FieldMap, 9, "Total Vessel Weight")
    ensures NotTarget(FieldMap, 10, "Berth Code/Label")
  {
    FieldMapEntries();
    SkippedSources();
    assert NotTarget(FieldMap, 8, "Draft") by {
      assert NotTarget(FieldMap, 1, "Draft");
      assert NotTarget(FieldMap, 2, "Draft");
      assert NotTarget(FieldMap, 3, "Draft");
      assert NotTarget(FieldMap, 4, "Draft");
      assert NotTarget(FieldMap, 5, "Draft");
      assert NotTarget(FieldMap, 6, "Draft");
      assert NotTarget(FieldMap, 7, "Draft");
    }
    assert NotTarget(FieldMap, 9, "Total Vessel Weight") by {
      assert NotTarget(FieldMap, 1, "Total Vessel Weight");
      assert NotTarget(FieldMap, 2, "Total Vessel Weight");
      assert NotTarget(FieldMap, 3, "Total Vessel Weight");
      assert NotTarget(FieldMap, 4, "Total Vessel Weight");
      assert NotTarget(FieldMap, 5, "Total Vessel Weight");
      assert NotTarget(FieldMap, 6, "Total Vessel Weight");
      assert NotTarget(FieldMap, 7, "Total Vessel Weight");
      assert NotTarget(FieldMap, 8, "Total Vessel Weight");
    }
    assert NotTarget(FieldMap, 10, "Berth Code/Label") by {
      assert NotTarget(FieldMap, 1, "Berth Code/Label");
      assert NotTarget(FieldMap, 2, "Berth Code/Label");
      assert NotTarget(FieldMap, 3, "Berth Code/Label");
      assert NotTarget(FieldMap, 4, "Berth Code/Label");
      assert NotTarget(FieldMap, 5, "Berth Code/Label");
      assert NotTarget(FieldMap, 6, "Berth Code/Label");
      assert NotTarget(FieldMap, 7, "Berth Code/Label");
      assert NotTarget(FieldMap, 8, "Berth Code/Label");
      assert NotTarget(FieldMap, 9, "Berth Code/Label");
    }
  }

  /** Each of pairs 11, 13 has a target no earlier kept pair has. */
  lemma FreshTargets11To13()
    ensures NotTarget(FieldMap, 11, "Berth Description")
    ensures NotTarget(FieldMap, 13, "Berthing Time")
  {
    FieldMapEntries();
    SkippedSources();
    assert NotTarget(FieldMap, 11, "Berth Description") by {
      assert NotTarget(FieldMap, 1, "Berth Description");
      assert NotTarget(FieldMap, 2, "Berth Description");
      assert NotTarget(FieldMap, 3, "Berth Description");
      assert NotTarget(FieldMap, 4, "Berth Description");
      assert NotTarget(FieldMap, 5, "Berth Description");
      assert NotTarget(FieldMap, 6, "Berth Description");
      assert NotTarget(FieldMap, 7, "Berth Description");
      assert NotTarget(FieldMap, 8, "Berth Description");
      assert NotTarget(FieldMap, 9, "Berth Description");
      assert NotTarget(FieldMap, 10, "Berth Description");
    }
    assert NotTarget(FieldMap, 13, "Berthing Time") by {
      assert NotTarget(FieldMap, 1, "Berthing Time");
      assert NotTarget(FieldMap, 2, "Berthing Time");
      assert NotTarget(FieldMap, 3, "Berthing Time");
      assert NotTarget(FieldMap, 4, "Berthing Time");
      assert NotTarget(FieldMap, 5, "Berthing Time");
      assert NotTarget(FieldMap, 6, "Berthing Time");
      assert NotTarget(FieldMap, 7, "Berthing Time");
      assert NotTarget(FieldMap, 8, "Berthing Time");
      assert NotTarget(FieldMap, 9, "Berthing Time");
      assert NotTarget(FieldMap, 10, "Berthing Time");
      assert NotTarget(FieldMap, 11, "Berthing Time");
      assert NotTarget(FieldMap, 12, "Berthing Time");
    }
  }

  /** Each of pairs 14, 15 has a target no earlier kept pair has. */
  lemma FreshTargets14To15()
    ensures NotTarget(FieldMap, 14, "Date and Time of Action")
    ensures NotTarget(FieldMap, 15, "Action")
  {
    FieldMapEntries();
    SkippedSources();
    assert NotTarget(FieldMap, 14, "Date and Time of Action") by {
      assert NotTarget(FieldMap, 1, "Date and Time of Action");
      assert NotTarget(FieldMap, 2, "Date and Time of Action");
      assert NotTarget(FieldMap, 3, "Date and Time of Action");
      assert NotTarget(FieldMap, 4, "Date and Time of Action");
      assert NotTarget(FieldMap, 5, "Date and Time of Action");
      assert NotTarget(FieldMap, 6, "Date and Time of Action");
      assert NotTarget(FieldMap, 7, "Date and Time of Action");
      assert NotTarget(FieldMap, 8, "Date and Time of Action");
      assert NotTarget(FieldMap, 9, "Date and Time of Action");
      assert NotTarget(FieldMap, 10, "Date and Time of Action");
      assert NotTarget(FieldMap, 11, "Date and Time of Action");
      assert NotTarget(FieldMap, 12, "Date and Time of Action");
      assert NotTarget(FieldMap, 13, "Date and Time of Action");
    }
    assert NotTarget(FieldMap, 15, "Action") by {
      assert NotTarget(FieldMap, 1, "Action");
      assert NotTarget(FieldMap, 2, "Action");
      assert NotTarget(FieldMap, 3, "Action");
      assert NotTarget(FieldMap, 4, "Action");
      assert NotTarget(FieldMap, 5, "Action");
      assert NotTarget(FieldMap, 6, "Action");
      assert NotTarget(FieldMap, 7, "Action");
      assert NotTarget(FieldMap, 8, "Action");
      assert NotTarget(FieldMap, 9, "Action");
      assert NotTarget(FieldMap, 10, "Action");
      assert NotTarget(FieldMap, 11, "Action");
      assert NotTarget(FieldMap, 12, "Action");
      assert NotTarget(FieldMap, 13, "Action");
      assert NotTarget(FieldMap, 14, "Action");
    }
  }

  /** Pair 20 has a target no earlier kept pair has. */
  lemma FreshTarget20()
    ensures NotTarget(FieldMap, 20, "Label")
  {
    FieldMapEntries();
    SkippedSources();
    assert NotTarget(FieldMap, 1, "Label");
    assert NotTarget(FieldMap, 2, "Label");
    assert NotTarget(FieldMap, 3, "Label");
    assert NotTarget(FieldMap, 4, "Label");
    assert NotTarget(FieldMap, 5, "Label");
    assert NotTarget(FieldMap, 6, "Label");
    assert NotTarget(FieldMap, 7, "Label");
    assert NotTarget(FieldMap, 8, "Label");
    assert NotTarget(FieldMap, 9, "Label");
    assert NotTarget(FieldMap, 10, "Label");
    assert NotTarget(FieldMap, 11, "Label");
    assert NotTarget(FieldMap, 12, "Label");
    assert NotTarget(FieldMap, 13, "Label");
    assert NotTarget(FieldMap, 14, "Label");
    assert NotTarget(FieldMap, 15, "Label");
    assert NotTarget(FieldMap, 16, "Label");
    assert NotTarget(FieldMap, 17, "Label");
    assert NotTarget(FieldMap, 18, "Label");
    assert NotTarget(FieldMap, 19, "Label");
  }

  /** Pair 21 has a target no earlier kept pair has. */
  lemma FreshTarget21()
    ensures NotTarget(FieldMap, 21, "Vessel type for cargo")
  {
    FieldMapEntries();
    SkippedSources();
    assert NotTarget(FieldMap, 1, "Vessel type for cargo");
    assert NotTarget(FieldMap, 2, "Vessel type for cargo");
    assert NotTarget(FieldMap, 3, "Vessel type for cargo");
    assert NotTarget(FieldMap, 4, "Vessel type for cargo");
    assert NotTarget(FieldMap, 5, "Vessel type for cargo");
    assert NotTarget(FieldMap, 6, "Vessel type for cargo");
    assert NotTarget(FieldMap, 7, "Vessel type for cargo");
    assert NotTarget(FieldMap, 8, "Vessel type for cargo");
    assert NotTarget(FieldMap, 9, "Vessel type for cargo");
    assert NotTarget(FieldMap, 10, "Vessel type for cargo");
    assert NotTarget(FieldMap, 11, "Vessel type for cargo");
    assert NotTarget(FieldMap, 12, "Vessel type for cargo");
    assert NotTarget(FieldMap, 13, "Vessel type for cargo");
    assert NotTarget(FieldMap, 14, "Vessel type for cargo");
    assert NotTarget(FieldMap, 15, "Vessel type for cargo");
    assert NotTarget(FieldMap, 16, "Vessel type for cargo");
    assert NotTarget(FieldMap, 17, "Vessel type for cargo");
    assert NotTarget(FieldMap, 18, "Vessel type for cargo");
    assert NotTarget(FieldMap, 19, "Vessel type for cargo");
    assert NotTarget(FieldMap, 20, "Vessel type for cargo");
  }

  /** The seventeen names the mapping produces are all different. */
  lemma FieldMapDistinct()
    ensures DistinctTargets(FieldMap, |FieldMap|)
  {
    FieldMapEntries();
    SkippedSources();
    FreshTargets1To7();
    FreshTargets8To10();
    FreshTargets11To13();
    FreshTargets14To15();
    FreshTarget20();
    FreshTarget21();
    assert DistinctTargets(FieldMap, 1);
    assert DistinctTargets(FieldMap, 2);
    assert DistinctTargets(FieldMap, 3);
    assert DistinctTargets(FieldMap, 4);
    assert DistinctTargets(FieldMap, 5);
    assert DistinctTargets(FieldMap, 6);
    assert DistinctTargets(FieldMap, 7);
    assert DistinctTargets(FieldMap, 8);
    assert DistinctTargets(FieldMap, 9);
    assert DistinctTargets(FieldMap, 10);
    assert DistinctTargets(FieldMap, 11);
    assert DistinctTargets(FieldMap, 12);
    assert DistinctTargets(FieldMap, 13);
    assert DistinctTargets(FieldMap, 14);
    assert DistinctTargets(FieldMap, 15);
    assert DistinctTargets(FieldMap, 16);
    assert DistinctTargets(FieldMap, 17);
    assert DistinctTargets(FieldMap, 18);
    assert DistinctTargets(FieldMap, 19);
    assert DistinctTargets(FieldMap, 20);
    assert DistinctTargets(FieldMap, 21);
    assert DistinctTargets(FieldMap, 22);
    assert DistinctTargets(FieldMap, 23);
  }
}
