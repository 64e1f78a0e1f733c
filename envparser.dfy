/**
 * The `.env.example` scanner of internal/envparser/parser.go. Lines are split as Go's
 * bufio.ScanLines splits them; each trimmed line is blank, a comment, an assignment or
 * something else, and a pending description carries from comments to the next assignment.
 */
module EnvParser {
  import opened Text
  import opened Schema

  /** A final carriage return is dropped from each line, as ScanLines does. */
  function DropCR(line: string): string {
    if |line| > 0 && line[|line| - 1] == '\r' then line[..|line| - 1] else line
  }

  /** bufio.ScanLines: split at '\n'; a final line without '\n' counts, an empty tail does not. */
  function Lines(content: string): (r: seq<string>)
    ensures content == "" ==> r == []
    ensures forall i :: 0 <= i < |r| ==> '\n' !in r[i]
    decreases |content|
  {
    if |content| == 0 then []
    else
      var i := IndexOf(content, '\n');
      if i == |content| then [DropCR(content)]
      else [DropCR(content[..i])] + Lines(content[i + 1..])
  }

  /** What one line is, after trimming. */
  datatype LineKind = Blank | Comment(text: string) | Assignment(name: string, example: string) | Other

  /**
   * A trimmed line is blank, a comment (the text after one '#', trimmed), an assignment split
   * at its first '=' with both sides trimmed and quotes kept, or none of these.
   */
  function Classify(raw: string): LineKind {
    var line := TrimSpace(raw);
    if line == "" then Blank
    else if HasPrefix(line, "#") then Comment(TrimSpace(line[1..]))
    else if '=' in line then
      var k := IndexOf(line, '=');
      Assignment(TrimSpace(line[..k]), TrimSpace(line[k + 1..]))
    else Other
  }

  /**
   * The four kinds partition trimmed lines: empty, starting with '#', holding an '=' (split
   * at the first one, so the name has none), or anything else; every text the kind carries
   * is trimmed.
   */
  lemma ClassifyMeaning(raw: string)
    ensures var line, k := TrimSpace(raw), Classify(raw);
      && (k.Blank? <==> line == "")
      && (k.Comment? <==> line != "" && line[0] == '#')
      && (k.Assignment? <==> line != "" && line[0] != '#' && '=' in line)
      && (k.Assignment? ==> '=' !in k.name && Trimmed(k.name) && Trimmed(k.example))
      && (k.Comment? ==> Trimmed(k.text))
  {
    var line := TrimSpace(raw);
    HashPrefix(line);
    if line != "" && line[0] != '#' && '=' in line {
      NameWithoutEquals(line);
    }
  }

  /** A line starts with "#" exactly when its first character is '#'. */
  lemma HashPrefix(line: string)
    ensures HasPrefix(line, "#") <==> line != "" && line[0] == '#'
  {
    if line != "" && line[0] == '#' {
      assert line[..1] == "#";
    }
  }

  /** The trimmed name before the first '=' holds no '='. */
  lemma NameWithoutEquals(line: string)
    requires '=' in line
    ensures '=' !in TrimSpace(line[..IndexOf(line, '=')])
  {
    TrimSpaceKeeps(line[..IndexOf(line, '=')], '=');
  }

  /** No white space at either end. */
  predicate Trimmed(s: string) {
    |s| > 0 ==> !IsSpace(s[0]) && !IsSpace(s[|s| - 1])
  }

  /** The kind of each line. */
  function ClassifyAll(lines: seq<string>): (ks: seq<LineKind>)
    ensures |ks| == |lines| && forall i :: 0 <= i < |lines| ==> ks[i] == Classify(lines[i])
  {
    seq(|lines|, i requires 0 <= i < |lines| => Classify(lines[i]))
  }

  /** The description waiting for the next assignment after the scanner has read lines of kinds `ks`. */
  function Pending(ks: seq<LineKind>): string {
    if |ks| == 0 then ""
    else
      var d := Pending(ks[..|ks| - 1]);
      match ks[|ks| - 1]
      case Blank => ""
      case Comment(t) => if t != "" then t else d
      case Assignment(_, _) => ""
      case Other => d
  }

  /** The variables the scanner has emitted after reading lines of kinds `ks`. */
  function Parse(ks: seq<LineKind>): seq<EnvVariable> {
    if |ks| == 0 then []
    else
      var init := ks[..|ks| - 1];
      Parse(init) + match ks[|ks| - 1]
        case Assignment(n, e) => [EnvVariable(n, Pending(init), e)]
        case _ => []
  }

  /** ParseEnvExample: the scan loop, with its one piece of carried state. */
  method ParseEnvExample(content: string) returns (envVars: seq<EnvVariable>)
    ensures envVars == Parse(ClassifyAll(Lines(content)))
  {
    var lines := Lines(content);
    ghost var ks := ClassifyAll(lines);
    envVars := [];
    var currentDescription := "";
    var i := 0;
    while i < |lines|
      invariant 0 <= i <= |lines|
      invariant envVars == Parse(ks[..i])
      invariant currentDescription == Pending(ks[..i])
    {
      var kind := Classify(lines[i]);
      ScanStep(ks, i);
      match kind {
        case Blank =>
          currentDescription := "";
        case Comment(comment) =>
          if comment != "" {
            currentDescription := comment;
          }
        case Assignment(name, example) =>
          envVars := envVars + [EnvVariable(name, currentDescription, example)];
          currentDescription := "";
        case Other =>
      }
      i := i + 1;
    }
    assert ks[..i] == ks;
  }

  /** Reading one more line: how the pending description and the emitted variables change. */
  lemma ScanStep(ks: seq<LineKind>, i: nat)
    requires i < |ks|
    ensures Pending(ks[..i + 1]) == match ks[i]
      case Blank => ""
      case Comment(t) => if t != "" then t else Pending(ks[..i])
      case Assignment(_, _) => ""
      case Other => Pending(ks[..i])
    ensures Parse(ks[..i + 1]) == Parse(ks[..i]) + match ks[i]
      case Assignment(n, e) => [EnvVariable(n, Pending(ks[..i]), e)]
      case _ => []
  {
    assert ks[..i + 1][..i] == ks[..i];
  }

  /** The number of assignment lines. */
  function CountAssignments(ks: seq<LineKind>): nat {
    if |ks| == 0 then 0
    else CountAssignments(ks[..|ks| - 1]) + if ks[|ks| - 1].Assignment? then 1 else 0
  }

  /**
   * One variable per assignment line, in input order: the assignment on line j is the k-th
   * variable, where k counts the assignments before it, and carries the description pending
   * when the scanner reached it.
   */
  lemma {:induction false} ParseOnePerAssignment(ks: seq<LineKind>)
    ensures |Parse(ks)| == CountAssignments(ks)
    ensures forall j :: 0 <= j < |ks| && ks[j].Assignment? ==>
              CountAssignments(ks[..j]) < |Parse(ks)| &&
              Parse(ks)[CountAssignments(ks[..j])] == EnvVariable(ks[j].name, Pending(ks[..j]), ks[j].example)
    decreases |ks|
  {
    if |ks| > 0 {
      var n := |ks| - 1;
      var init := ks[..n];
      ParseOnePerAssignment(init);
      forall j | 0 <= j < |ks| && ks[j].Assignment?
        ensures CountAssignments(ks[..j]) < |Parse(ks)|
        ensures Parse(ks)[CountAssignments(ks[..j])] == EnvVariable(ks[j].name, Pending(ks[..j]), ks[j].example)
      {
        if j < n {
          assert init[j] == ks[j];
          assert init[..j] == ks[..j];
        }
      }
    }
  }

  /** A line that leaves the pending description as it is: a bare '#' or an unrecognised line. */
  predicate Transparent(k: LineKind) {
    k.Other? || k == Comment("")
  }

  /** Line i is a non-empty comment and nothing after it consumed or reset the description. */
  ghost predicate OpenComment(ks: seq<LineKind>, i: int) {
    && 0 <= i < |ks|
    && ks[i].Comment? && ks[i].text != ""
    && forall j :: i < j < |ks| ==> Transparent(ks[j])
  }

  /**
   * The pending description is the most recent non-empty comment since the last blank line
   * or emitted variable, and "" when there is none.
   */
  lemma {:induction false} PendingIsLatestComment(ks: seq<LineKind>)
    ensures forall i :: OpenComment(ks, i) ==> Pending(ks) == ks[i].text
    ensures (forall i :: !OpenComment(ks, i)) ==> Pending(ks) == ""
    decreases |ks|
  {
    if |ks| > 0 {
      var n := |ks| - 1;
      var init := ks[..n];
      PendingIsLatestComment(init);
      forall i | OpenComment(ks, i) ensures Pending(ks) == ks[i].text {
        if i < n {
          assert init[i] == ks[i];
          assert OpenComment(init, i);
        }
      }
      if forall i :: !OpenComment(ks, i) {
        if Transparent(ks[n]) {
          forall i | 0 <= i < |init| ensures !OpenComment(init, i) {
            assert init[i] == ks[i];
            assert !OpenComment(ks, i);
          }
        } else {
          assert !OpenComment(ks, n);
        }
      }
    }
  }

  /** Lines without an assignment, as in empty content or comments only, yield no variables. */
  lemma {:induction false} NoAssignmentsNoVariables(ks: seq<LineKind>)
    requires forall i :: 0 <= i < |ks| ==> !ks[i].Assignment?
    ensures Parse(ks) == []
    decreases |ks|
  {
    if |ks| > 0 {
      NoAssignmentsNoVariables(ks[..|ks| - 1]);
    }
  }
}
