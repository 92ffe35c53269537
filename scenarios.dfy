/** Worked examples of the fixture validator on concrete records. */
module FolderTestScenarios {
  import opened JsValue
  import opened FolderTest
  import Decimal

  const NoOptions := Options(None, None, None, false)

  /** A title, an input and a filename make a conforming record; without the
      title the record fails for the title, and its log entry names its file. */
  lemma TitleScenarios()
    ensures ValidateTest(
      Record(["title", "input", "filename"],
             map["title" := Str("t1"), "input" := Num(5), "filename" := Str("a.json")]),
      NoOptions) == Ok
    ensures FailureLog([Record(["input", "filename"], map["input" := Num(5), "filename" := Str("b.json")])], NoOptions)
         == [LogEntry(Str("b.json"), TitleInvalid)]
  {
  }

  /** An expected error accepted by the error predicate conforms. */
  lemma ErrorValidatorScenario()
    ensures ValidateTest(
      Record(["title", "input", "expected", "errorExpected", "filename"],
             map["title" := Str("t2"), "input" := Num(5), "expected" := Str("x"),
                 "errorExpected" := Bool(true), "filename" := Str("c.json")]),
      NoOptions.(errorValidator := Some(v => v == Str("x")))) == Ok
  {
  }

  /** An extra key is named when excess keys are checked and ignored otherwise. */
  lemma ExcessKeyScenario()
    ensures var content := Record(["title", "input", "extra", "filename"],
      map["title" := Str("t3"), "input" := Num(1), "extra" := Bool(true), "filename" := Str("d.json")]);
      && ValidateTest(content, NoOptions.(checkForExcessKeys := true)) == Fail(ExtraneousKey("extra"))
      && ValidateTest(content, NoOptions) == Ok
  {
  }

  /** Of three records the middle one lacks its input: one entry is logged,
      for that record. */
  lemma BatchScenario()
    ensures var tests := [
        Record(["title", "input", "filename"], map["title" := Str("t1"), "input" := Num(1), "filename" := Str("a.json")]),
        Record(["title", "filename"], map["title" := Str("t2"), "filename" := Str("b.json")]),
        Record(["title", "input", "filename"], map["title" := Str("t3"), "input" := Null, "filename" := Str("c.json")])];
      FailureLog(tests, NoOptions) == [LogEntry(Str("b.json"), InputMissing)]
  {
    var a := Record(["title", "input", "filename"], map["title" := Str("t1"), "input" := Num(1), "filename" := Str("a.json")]);
    var b := Record(["title", "filename"], map["title" := Str("t2"), "filename" := Str("b.json")]);
    var c := Record(["title", "input", "filename"], map["title" := Str("t3"), "input" := Null, "filename" := Str("c.json")]);
    assert ValidateTest(a, NoOptions) == Ok;
    assert ValidateTest(b, NoOptions) == Fail(InputMissing);
    assert ValidateTest(c, NoOptions) == Ok;
    assert [a, b, c][..2] == [a, b];
    assert [a, b][..1] == [a];
    assert [a][..0] == [];
    assert FailureLog([a], NoOptions) == [];
    assert FailureLog([a, b], NoOptions) == [LogEntry(Str("b.json"), InputMissing)];
  }

  /** One failure is reported with the singular noun. */
  lemma SingleFailureMessage()
    ensures BatchMessage(1) == "1 test did not conform to the test schema."
  {
    var tail := " did not conform to the test schema.";
    assert Decimal.NatToString(1) == "1";
    assert BatchMessage(1) == "1 test" + tail by {
      assert "1" + " " + "test" == "1 test";
    }
    SingularMessageText();
  }

  /** The singular head and the fixed tail spell the whole message. */
  lemma SingularMessageText()
    ensures "1 test" + " did not conform to the test schema." == "1 test did not conform to the test schema."
  {
  }

  /** The three-record batch above is rejected with the singular message,
      after logging its one failing record. */
  method RunBatchScenario() returns (result: BatchResult, log: seq<LogEntry>)
    ensures result == Rejected("1 test did not conform to the test schema.")
    ensures log == [LogEntry(Str("b.json"), InputMissing)]
  {
    var a := Record(["title", "input", "filename"], map["title" := Str("t1"), "input" := Num(1), "filename" := Str("a.json")]);
    var b := Record(["title", "filename"], map["title" := Str("t2"), "filename" := Str("b.json")]);
    var c := Record(["title", "input", "filename"], map["title" := Str("t3"), "input" := Null, "filename" := Str("c.json")]);
    BatchScenario();
    result, log := ValidateTests([a, b, c], NoOptions);
    SingleFailureMessage();
  }
}
