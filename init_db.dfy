/** The database initialisation script: splits the schema file into
    statements and sends them one by one, carrying on past statements whose
    request fails, then asks for the list of tables. The environment, the
    file and the requests are inputs to the model. */
module InitDb {
  import opened Wrappers
  import opened JsStrings

  /** A statement as the pipeline keeps it: not empty, no `;`, no whitespace
      at either end. */
  predicate IsStatement(s: string)
  {
    s != [] && ';' !in s && !IsJsWhitespace(s[0]) && !IsJsWhitespace(s[|s| - 1])
  }

  /** `.map(stmt => stmt.trim()).filter(stmt => stmt.length > 0)`. */
  function TrimNonEmpty(pieces: seq<string>): (r: seq<string>)
    requires forall i :: 0 <= i < |pieces| ==> ';' !in pieces[i]
    ensures |r| <= |pieces|
    ensures forall s :: s in r ==> IsStatement(s)
  {
    if pieces == [] then []
    else
      TrimKeepsOut(pieces[0], ';');
      var t := Trim(pieces[0]);
      var rest := TrimNonEmpty(pieces[1..]);
      if |t| > 0 then
        assert IsStatement(t);
        [t] + rest
      else rest
  }

  /** `schemaSQL.split(';').map(trim).filter(nonEmpty)`. */
  function SplitStatements(sql: string): (r: seq<string>)
    ensures forall i :: 0 <= i < |r| ==> IsStatement(r[i])
    ensures |r| <= |Split(sql, ';')|
  {
    TrimNonEmpty(Split(sql, ';'))
  }

  /** Statements already in the kept form pass the trim and the filter
      unchanged. */
  lemma {:induction false} TrimNonEmptyOfStatements(stmts: seq<string>)
    requires forall i :: 0 <= i < |stmts| ==> IsStatement(stmts[i])
    requires forall i :: 0 <= i < |stmts| ==> ';' !in stmts[i]
    ensures TrimNonEmpty(stmts) == stmts
  {
    if stmts != [] {
      TrimOfTrimmed(stmts[0]);
      TrimNonEmptyOfStatements(stmts[1..]);
    }
  }

  /** Joining statements with `;` and splitting the result gives them back:
      no statement is lost, merged, reordered or altered. */
  lemma SplitStatementsOfJoin(stmts: seq<string>)
    requires forall i :: 0 <= i < |stmts| ==> IsStatement(stmts[i])
    ensures SplitStatements(Join(stmts, ';')) == stmts
  {
    if stmts == [] {
      assert Split("", ';') == [""];
      assert Trim("") == "";
    } else {
      assert forall i :: 0 <= i < |stmts| ==> IsStatement(stmts[i]) && ';' !in stmts[i];
      SplitOfJoin(stmts, ';');
      TrimNonEmptyOfStatements(stmts);
    }
  }

  /** Whitespace-only and empty pieces are dropped: a trailing `;`, a blank
      line between two `;` or a file of whitespace adds no statement. */
  lemma {:induction false} BlankPiecesDropped(pieces: seq<string>, blank: string)
    requires forall i :: 0 <= i < |pieces| ==> ';' !in pieces[i]
    requires ';' !in blank && AllWhitespace(blank)
    ensures TrimNonEmpty(pieces + [blank]) == TrimNonEmpty(pieces)
    decreases |pieces|
  {
    if pieces == [] {
      TrimIsSlice(blank);
      assert TrimNonEmpty([blank]) == TrimNonEmpty([blank][1..]);
    } else {
      assert (pieces + [blank])[1..] == pieces[1..] + [blank];
      BlankPiecesDropped(pieces[1..], blank);
    }
  }

  /** The 1-based numbers of the first `n` statements whose request threw,
      in order: the warnings the loop prints. */
  function WarningsFor(n: nat, failures: set<nat>): (w: seq<nat>)
    ensures forall k :: k in w <==> 1 <= k <= n && k - 1 in failures
    ensures forall i, j :: 0 <= i < j < |w| ==> w[i] < w[j]
  {
    if n == 0 then []
    else
      var w := WarningsFor(n - 1, failures);
      assert forall i :: 0 <= i < |w| ==> w[i] in w && w[i] < n;
      w + (if n - 1 in failures then [n] else [])
  }

  /** The queries the loop sends: each statement with `;` put back. */
  function Queries(stmts: seq<string>): (q: seq<string>)
    ensures |q| == |stmts|
    ensures forall i :: 0 <= i < |q| ==> q[i] == stmts[i] + ";"
  {
    seq(|stmts|, i requires 0 <= i < |stmts| => stmts[i] + ";")
  }

  /** The `for` loop over the statements. `failures` holds the (0-based)
      positions whose request throws; each of those is reported and the loop
      goes on. Returns the queries sent, in order, and the warnings. */
  method ExecuteStatements(stmts: seq<string>, failures: set<nat>)
    returns (sent: seq<string>, warnings: seq<nat>)
    ensures sent == Queries(stmts)
    ensures warnings == WarningsFor(|stmts|, failures)
  {
    sent, warnings := [], [];
    for i := 0 to |stmts|
      invariant sent == Queries(stmts[..i])
      invariant warnings == WarningsFor(i, failures)
    {
      sent := sent + [stmts[i] + ";"];
      if i in failures {
        warnings := warnings + [i + 1];
      }
    }
    assert stmts[..|stmts|] == stmts;
  }

  /** What a run of the script leaves behind: its exit code, the statement
      count it reports, the queries sent and the warnings. */
  datatype Run = Run(exitCode: int, found: Option<nat>, sent: seq<string>, warnings: seq<nat>)

  /** The script from the environment check to the table listing. `schema`
      is the file's text (or the error reading it), `failures` the positions
      whose request throws and `verified` whether the listing request and its
      JSON answered. */
  method InitializeDatabase(url: Option<string>, serviceKey: Option<string>,
                            schema: Result<string, string>, failures: set<nat>, verified: bool)
    returns (run: Run)
    ensures !Truthy(url) || !Truthy(serviceKey) ==> run == Run(1, None, [], [])
    ensures Truthy(url) && Truthy(serviceKey) && schema.Failure? ==> run == Run(1, None, [], [])
    ensures Truthy(url) && Truthy(serviceKey) && schema.Success? ==>
      var stmts := SplitStatements(schema.value);
      && run.found == Some(|stmts|)
      && run.sent == Queries(stmts)
      && run.warnings == WarningsFor(|stmts|, failures)
      && run.exitCode == (if verified then 0 else 1)
  {
    if !Truthy(url) || !Truthy(serviceKey) {
      return Run(1, None, [], []);
    }
    match schema {
      case Failure(_) =>
        run := Run(1, None, [], []);
      case Success(sql) =>
        var stmts := SplitStatements(sql);
        var sent, warnings := ExecuteStatements(stmts, failures);
        run := Run(if verified then 0 else 1, Some(|stmts|), sent, warnings);
    }
  }
}
