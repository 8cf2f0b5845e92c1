/**
 * The multi-edit tool: a list of find-and-replace edits applied to one file
 * all together or not at all. Every edit is first checked against the text
 * the edits before it leave behind; only when all pass is anything written.
 */
module MultiEdit {
  import opened Wrappers
  import opened Text
  import opened FileTools

  /** One edit as the model sends it; a field may be missing. */
  datatype EditSpec = EditSpec(oldString: Option<String>, newString: Option<String>)

  function Old(e: EditSpec): String { e.oldString.GetOr("") }
  function New(e: EditSpec): String { e.newString.GetOr("") }

  /** An edit the validator lets through on the text `test`. */
  predicate GoodAt(test: String, e: EditSpec) {
    e.oldString.Some? && e.newString.Some? && |Old(e)| > 0 && Contains(test, Old(e)) && Old(e) != New(e)
  }

  /** One edit applied to a text; an edit with nothing to find changes nothing. */
  function ApplyOne(test: String, e: EditSpec): String {
    if |Old(e)| == 0 then test else Replace(test, Old(e), New(e))
  }

  /** How many times an edit's text occurs in `test`. */
  function Occurrences(test: String, e: EditSpec): nat {
    if |Old(e)| == 0 then 0 else Count(test, Old(e))
  }

  /** The text after applying the edits one after another, each to the result of the last. */
  function Simulate(test: String, edits: seq<EditSpec>): String
    decreases |edits|
  {
    if |edits| == 0 then test else Simulate(ApplyOne(test, edits[0]), edits[1..])
  }

  function EditLabel(n: nat): String {
    "Error: Edit " + NatToString(n)
  }

  /**
   * `_validate_edits` after the empty-list check: `before` edits have
   * passed, and the rest are checked in order; `repr` renders Python's
   * `repr` of the missing text.
   */
  function Validate(test: String, edits: seq<EditSpec>, before: nat, repr: String -> String): (err: Option<String>)
    ensures err.Some? ==> StartsWith(err.value, "Error: Edit ")
    decreases |edits|
  {
    if |edits| == 0 then None
    else
      var e := edits[0];
      var lead := EditLabel(before + 1);
      var err :=
        if e.oldString.None? || e.newString.None? then Some(lead + " missing required fields")
        else if |Old(e)| == 0 then Some(lead + " has empty old_string")
        else if !Contains(test, Old(e)) then Some(lead + " cannot be applied - text not found: " + repr(Old(e)))
        else if Old(e) == New(e) then Some(lead + " has identical old_string and new_string")
        else Validate(Replace(test, Old(e), New(e)), edits[1..], before + 1, repr);
      assert err.Some? ==> err.value[..12] == "Error: Edit ";
      err
  }

  const NoEdits: String := "Error: No edits provided"

  function ValidateEdits(content: String, edits: seq<EditSpec>, repr: String -> String): (err: Option<String>)
    ensures |edits| == 0 ==> err == Some(NoEdits)
  {
    if |edits| == 0 then Some(NoEdits) else Validate(content, edits, 0, repr)
  }

  /**
   * The validator passes exactly when every edit is good on the text the
   * edits before it produce.
   */
  lemma {:induction false} ValidateAllGood(test: String, edits: seq<EditSpec>, before: nat, repr: String -> String)
    ensures Validate(test, edits, before, repr).None? <==> AllGood(test, edits)
    decreases |edits|
  {
    if |edits| > 0 {
      var e := edits[0];
      var rest := edits[1..];
      var next := ApplyOne(test, e);
      ValidateAllGood(next, rest, before + 1, repr);
      assert edits[..0] == [];
      forall k | 0 <= k < |rest|
        ensures Simulate(test, edits[..k + 1]) == Simulate(next, rest[..k]) && edits[k + 1] == rest[k]
      {
        assert edits[..k + 1][1..] == rest[..k];
      }
      if GoodAt(test, e) {
        assert Validate(test, edits, before, repr) == Validate(next, rest, before + 1, repr);
        if Validate(test, edits, before, repr).None? {
          forall k | 0 <= k < |edits|
            ensures GoodAt(Simulate(test, edits[..k]), edits[k])
          {
            if k > 0 {
              assert Simulate(test, edits[..k]) == Simulate(next, rest[..k - 1]);
            }
          }
        } else {
          var k :| 0 <= k < |rest| && !GoodAt(Simulate(next, rest[..k]), rest[k]);
          assert !GoodAt(Simulate(test, edits[..k + 1]), edits[k + 1]);
        }
      } else {
        assert !GoodAt(Simulate(test, edits[..0]), edits[0]);
      }
    }
  }

  /** A list that passes has a good first edit, and its other edits pass on what that edit leaves. */
  lemma ValidateStep(test: String, edits: seq<EditSpec>, before: nat, repr: String -> String)
    requires Validate(test, edits, before, repr).None? && |edits| > 0
    ensures GoodAt(test, edits[0])
    ensures ApplyOne(test, edits[0]) == Replace(test, Old(edits[0]), New(edits[0]))
    ensures Validate(ApplyOne(test, edits[0]), edits[1..], before + 1, repr).None?
  {
  }

  /** The report line for one applied edit, with the number of occurrences it replaced. */
  function SummaryLine(n: nat, count: nat): (line: String)
    ensures StartsWith(line, "Edit " + NatToString(n) + ": Replaced ")
  {
    var head := "Edit " + NatToString(n) + ": Replaced ";
    var line := if count > 1 then head + NatToString(count) + " occurrences" else head + "1 occurrence";
    assert line[..|head|] == head;
    line
  }

  datatype Applied = Applied(content: String, summary: seq<String>)

  /**
   * The apply loop of `MultiEditTool.execute`, after validation: each edit
   * counts its occurrences and then replaces them all. Its own re-check
   * that the text is there never fails.
   */
  function Apply(content: String, edits: seq<EditSpec>, before: nat, repr: String -> String): (r: Applied)
    requires Validate(content, edits, before, repr).None?
    ensures r.content == Simulate(content, edits)
    ensures |r.summary| == |edits|
    decreases |edits|
  {
    if |edits| == 0 then Applied(content, [])
    else
      var e := edits[0];
      assert Contains(content, Old(e));
      var count := Occurrences(content, e);
      var rest := Apply(Replace(content, Old(e), New(e)), edits[1..], before + 1, repr);
      Applied(rest.content, [SummaryLine(before + 1, count)] + rest.summary)
  }

  /**
   * Each summary line numbers its edit and counts the occurrences on the
   * text as the earlier edits left it, not on the original.
   */
  lemma {:induction false} ApplySummary(content: String, edits: seq<EditSpec>, before: nat, repr: String -> String, k: nat)
    requires Validate(content, edits, before, repr).None? && k < |edits|
    ensures Apply(content, edits, before, repr).summary[k]
         == SummaryLine(before + k + 1, Occurrences(Simulate(content, edits[..k]), edits[k]))
    decreases k
  {
    ValidateStep(content, edits, before, repr);
    var next := ApplyOne(content, edits[0]);
    if k > 0 {
      ApplySummary(next, edits[1..], before + 1, repr, k - 1);
      assert edits[..k][1..] == edits[1..][..k - 1];
      assert Simulate(content, edits[..k]) == Simulate(next, edits[1..][..k - 1]);
      assert Apply(content, edits, before, repr).summary[k] == Apply(next, edits[1..], before + 1, repr).summary[k - 1];
    } else {
      assert edits[..0] == [];
    }
  }

  /** `MultiEditTool.execute` on the shared read set; nothing is read from the file before the gate. */
  function Execute(fs: Fs, read: set<String>, resolve: String -> String, path: String, edits: seq<EditSpec>, repr: String -> String): (s: Step)
    ensures s.read == read
    ensures s.fs == fs || (resolve(path) in fs && fs[resolve(path)].File? && resolve(path) in read
                           && s.fs == fs[resolve(path) := File(Simulate(fs[resolve(path)].content, edits))])
  {
    var p := resolve(path);
    if p !in fs then Step("Error: File not found at " + path, fs, read)
    else if fs[p].Dir? then Step("Error: " + path + " is not a file", fs, read)
    else if p !in read then Step(NotReadError("edit file", path), fs, read)
    else
      var content := fs[p].content;
      var err := ValidateEdits(content, edits, repr);
      if err.Some? then Step(err.value, fs, read)
      else
        var r := Apply(content, edits, 0, repr);
        Step("Successfully applied " + NatToString(|edits|) + " edits to " + path + ":\n" + Join(r.summary, "\n"),
             fs[p := File(r.content)], read)
  }

  /** Every edit is good on the text the edits before it produce. */
  predicate AllGood(test: String, edits: seq<EditSpec>) {
    forall k :: 0 <= k < |edits| ==> GoodAt(Simulate(test, edits[..k]), edits[k])
  }

  /** The conditions under which the tool writes: a read file and a non-empty list of edits that are good in turn. */
  predicate Writes(fs: Fs, read: set<String>, p: String, edits: seq<EditSpec>) {
    p in fs && fs[p].File? && p in read && |edits| > 0 && AllGood(fs[p].content, edits)
  }

  /** All: when every check passes the file holds exactly the validator's simulation. */
  lemma AllApplied(fs: Fs, read: set<String>, resolve: String -> String, path: String, edits: seq<EditSpec>, repr: String -> String)
    requires Writes(fs, read, resolve(path), edits)
    ensures var s := Execute(fs, read, resolve, path, edits, repr);
      s.fs == fs[resolve(path) := File(Simulate(fs[resolve(path)].content, edits))]
      && StartsWith(s.out, "Successfully applied " + NatToString(|edits|) + " edits to " + path + ":\n")
  {
    var p := resolve(path);
    ValidateAllGood(fs[p].content, edits, 0, repr);
    var s := Execute(fs, read, resolve, path, edits, repr);
    var head := "Successfully applied " + NatToString(|edits|) + " edits to " + path + ":\n";
    assert s.out[..|head|] == head;
  }

  /** Nothing: when any check fails the file is untouched and the answer is an error. */
  lemma NothingOnError(fs: Fs, read: set<String>, resolve: String -> String, path: String, edits: seq<EditSpec>, repr: String -> String)
    requires !Writes(fs, read, resolve(path), edits)
    ensures var s := Execute(fs, read, resolve, path, edits, repr);
      s.fs == fs && StartsWith(s.out, "Error: ")
  {
    var p := resolve(path);
    var s := Execute(fs, read, resolve, path, edits, repr);
    if p !in fs || fs[p].Dir? || p !in read {
      assert s.out[..7] == "Error: ";
    } else if |edits| == 0 {
      assert s.out == NoEdits;
    } else {
      ValidateAllGood(fs[p].content, edits, 0, repr);
      var err := Validate(fs[p].content, edits, 0, repr);
      assert s == Step(err.value, fs, read);
      assert s.out[..7] == s.out[..12][..7];
    }
  }

  /**
   * The read gate comes before the edits are looked at: on a file not yet
   * read, every list of edits, valid or not, gets the same refusal.
   */
  lemma GateBeforeValidation(fs: Fs, read: set<String>, resolve: String -> String, path: String, e1: seq<EditSpec>, e2: seq<EditSpec>, repr: String -> String)
    requires resolve(path) in fs && fs[resolve(path)].File? && resolve(path) !in read
    ensures Execute(fs, read, resolve, path, e1, repr) == Execute(fs, read, resolve, path, e2, repr)
    ensures Execute(fs, read, resolve, path, e1, repr).out == NotReadError("edit file", path)
  {
  }

  /** A single good edit does what the single-edit tool does to the file. */
  lemma OneEditAgreesWithEditTool(fs: Fs, read: set<String>, resolve: String -> String, path: String, e: EditSpec, repr: String -> String)
    requires resolve(path) in fs && fs[resolve(path)].File? && resolve(path) in read
    requires GoodAt(fs[resolve(path)].content, e)
    ensures Execute(fs, read, resolve, path, [e], repr).fs == EditFile(fs, read, resolve, path, Old(e), New(e)).fs
  {
    var p := resolve(path);
    assert [e][1..] == [];
    assert Validate(Replace(fs[p].content, Old(e), New(e)), [e][1..], 1, repr) == None;
  }
}
