/** `Config.validate` of `simple_rag/config.py` and the default settings it
    checks. The values read from the environment and whether the data
    directory exists are inputs. */
module Config {
  import opened Wrappers

  /** The settings `validate` reads: the data directory as written in the
      message, whether it exists on disk, and the three integers parsed from
      the environment. */
  datatype Settings = Settings(
    dataDir: string, dataDirExists: bool, chunkSize: int, chunkOverlap: int, retrievalK: int)

  /** `CHUNK_SIZE`, `CHUNK_OVERLAP` and `RETRIEVAL_K` when the environment does
      not set them. */
  const DefaultChunkSize: int := 1000
  const DefaultChunkOverlap: int := 200
  const DefaultRetrievalK: int := 2

  /** The settings with every numeric default, for a given data directory. */
  function Defaults(dataDir: string, dataDirExists: bool): Settings
  {
    Settings(dataDir, dataDirExists, DefaultChunkSize, DefaultChunkOverlap, DefaultRetrievalK)
  }

  /** The four checks, one per `if` of `validate`. */
  datatype Check = DataDirMissing | ChunkSizeNotPositive | OverlapNotBelowSize | RetrievalKNotPositive

  /** The order in which `validate` runs the checks. */
  const AllChecks: seq<Check> :=
    [DataDirMissing, ChunkSizeNotPositive, OverlapNotBelowSize, RetrievalKNotPositive]

  /** The position of a check in `AllChecks`. */
  function Rank(c: Check): nat
  {
    match c
    case DataDirMissing => 0
    case ChunkSizeNotPositive => 1
    case OverlapNotBelowSize => 2
    case RetrievalKNotPositive => 3
  }

  /** The condition under which a check records an error. The overlap is bounded
      only from above. */
  predicate Fails(s: Settings, c: Check)
  {
    match c
    case DataDirMissing => !s.dataDirExists
    case ChunkSizeNotPositive => s.chunkSize <= 0
    case OverlapNotBelowSize => s.chunkOverlap >= s.chunkSize
    case RetrievalKNotPositive => s.retrievalK <= 0
  }

  /** The checks of `cs` that fail on `s`, in the order of `cs`. */
  function Failing(s: Settings, cs: seq<Check>): seq<Check>
    decreases |cs|
  {
    if cs == [] then [] else (if Fails(s, cs[0]) then [cs[0]] else []) + Failing(s, cs[1..])
  }

  /** The checks that fail on `s`, in the order `validate` runs them. */
  function Failures(s: Settings): seq<Check>
  {
    Failing(s, AllChecks)
  }

  /** `Failing` keeps exactly the failing members of `cs`. */
  lemma {:induction false} FailingMembers(s: Settings, cs: seq<Check>, c: Check)
    ensures c in Failing(s, cs) <==> c in cs && Fails(s, c)
    decreases |cs|
  {
    if cs != [] {
      FailingMembers(s, cs[1..], c);
      assert cs == [cs[0]] + cs[1..];
    }
  }

  /** Ranks strictly increase along `cs`. */
  ghost predicate Ascending(cs: seq<Check>)
  {
    forall i, j :: 0 <= i < j < |cs| ==> Rank(cs[i]) < Rank(cs[j])
  }

  /** `Failing` keeps the order of `cs`. */
  lemma {:induction false} FailingAscending(s: Settings, cs: seq<Check>)
    requires Ascending(cs)
    ensures Ascending(Failing(s, cs))
    decreases |cs|
  {
    if cs != [] {
      var rest := Failing(s, cs[1..]);
      FailingAscending(s, cs[1..]);
      forall c | c in rest
        ensures Rank(cs[0]) < Rank(c)
      {
        FailingMembers(s, cs[1..], c);
        var j :| 0 <= j < |cs[1..]| && cs[1..][j] == c;
        assert cs[j + 1] == c;
      }
      var head := if Fails(s, cs[0]) then [cs[0]] else [];
      assert Failing(s, cs) == head + rest;
      forall i, j | 0 <= i < j < |head + rest|
        ensures Rank((head + rest)[i]) < Rank((head + rest)[j])
      {
        if i >= |head| {
          assert (head + rest)[i] == rest[i - |head|];
        } else {
          assert rest[j - 1] in rest;
        }
      }
    }
  }

  /** Every check runs, none short-circuits the others: a check is recorded
      exactly when its condition holds, and the recorded checks keep the order
      of the source. */
  lemma FailuresExact(s: Settings)
    ensures forall c :: c in Failures(s) <==> Fails(s, c)
    ensures Ascending(Failures(s))
  {
    forall c
      ensures c in Failures(s) <==> Fails(s, c)
    {
      FailingMembers(s, AllChecks, c);
      assert AllChecks[Rank(c)] == c;
    }
    FailingAscending(s, AllChecks);
  }

  const DataDirText: string := "Diretório de dados não encontrado: "
  const ChunkSizeText: string := "CHUNK_SIZE deve ser maior que 0"
  const OverlapText: string := "CHUNK_OVERLAP deve ser menor que CHUNK_SIZE"
  const RetrievalKText: string := "RETRIEVAL_K deve ser maior que 0"

  /** The text a failing check records. */
  function Message(s: Settings, c: Check): string
  {
    match c
    case DataDirMissing => DataDirText + s.dataDir
    case ChunkSizeNotPositive => ChunkSizeText
    case OverlapNotBelowSize => OverlapText
    case RetrievalKNotPositive => RetrievalKText
  }

  /** The texts of a list of checks, in the same order. */
  function Messages(s: Settings, cs: seq<Check>): seq<string>
    decreases |cs|
  {
    if cs == [] then [] else [Message(s, cs[0])] + Messages(s, cs[1..])
  }

  const Header: string := "Erros de configuração:\n"

  /** `"\n".join(f"  - {e}" for e in errors)`. */
  function Bullets(errors: seq<string>): string
    decreases |errors|
  {
    if errors == [] then ""
    else if |errors| == 1 then "  - " + errors[0]
    else Bullets(errors[..|errors| - 1]) + "\n" + "  - " + errors[|errors| - 1]
  }

  /** The message of the `ValueError` raised by `validate`. */
  function Report(errors: seq<string>): string
  {
    Header + Bullets(errors)
  }

  /** Each further error adds one line to the report, after the earlier ones. */
  lemma ReportGrows(errors: seq<string>, e: string)
    requires errors != []
    ensures Report(errors + [e]) == Report(errors) + "\n  - " + e
  {
    var all := errors + [e];
    assert all[..|all| - 1] == errors;
  }

  /** What happens after the checks: the exception with its message, or the
      creation of the log directory. */
  datatype Outcome = Raised(message: string) | LogDirCreated

  /** `Config.validate()`: runs the four checks in turn, appending an error for
      each that fails, then raises when any did and creates the log directory
      otherwise. */
  method Validate(s: Settings) returns (errors: seq<string>, outcome: Outcome)
    ensures errors == Messages(s, Failures(s))
    ensures outcome.Raised? <==> Failures(s) != []
    ensures outcome.Raised? ==> outcome.message == Report(errors)
  {
    errors := [];
    ghost var recorded: seq<Check> := [];
    FailingAppend(s, [], DataDirMissing);
    if !s.dataDirExists {
      MessagesAppend(s, recorded, DataDirMissing);
      errors := errors + [Message(s, DataDirMissing)];
      recorded := recorded + [DataDirMissing];
    }
    assert recorded == Failing(s, AllChecks[..1]) && errors == Messages(s, recorded);
    FailingAppend(s, AllChecks[..1], ChunkSizeNotPositive);
    if s.chunkSize <= 0 {
      MessagesAppend(s, recorded, ChunkSizeNotPositive);
      errors := errors + [Message(s, ChunkSizeNotPositive)];
      recorded := recorded + [ChunkSizeNotPositive];
    }
    assert AllChecks[..1] + [ChunkSizeNotPositive] == AllChecks[..2];
    assert recorded == Failing(s, AllChecks[..2]) && errors == Messages(s, recorded);
    FailingAppend(s, AllChecks[..2], OverlapNotBelowSize);
    if s.chunkOverlap >= s.chunkSize {
      MessagesAppend(s, recorded, OverlapNotBelowSize);
      errors := errors + [Message(s, OverlapNotBelowSize)];
      recorded := recorded + [OverlapNotBelowSize];
    }
    assert AllChecks[..2] + [OverlapNotBelowSize] == AllChecks[..3];
    assert recorded == Failing(s, AllChecks[..3]) && errors == Messages(s, recorded);
    FailingAppend(s, AllChecks[..3], RetrievalKNotPositive);
    if s.retrievalK <= 0 {
      MessagesAppend(s, recorded, RetrievalKNotPositive);
      errors := errors + [Message(s, RetrievalKNotPositive)];
      recorded := recorded + [RetrievalKNotPositive];
    }
    assert AllChecks[..3] + [RetrievalKNotPositive] == AllChecks;
    assert recorded == Failures(s) && errors == Messages(s, recorded);
    if errors != [] {
      outcome := Raised(Report(errors));
      return;
    }
    outcome := LogDirCreated;
  }

  /** The checks of `cs` followed by one more check. */
  lemma {:induction false} FailingAppend(s: Settings, cs: seq<Check>, c: Check)
    ensures Failing(s, cs + [c]) == Failing(s, cs) + (if Fails(s, c) then [c] else [])
    decreases |cs|
  {
    if cs == [] {
      assert [c][1..] == [];
    } else {
      assert (cs + [c])[1..] == cs[1..] + [c];
      FailingAppend(s, cs[1..], c);
    }
  }

  lemma {:induction false} MessagesAppend(s: Settings, cs: seq<Check>, c: Check)
    ensures Messages(s, cs + [c]) == Messages(s, cs) + [Message(s, c)]
    decreases |cs|
  {
    if cs == [] {
      assert [c][1..] == [];
    } else {
      assert (cs + [c])[1..] == cs[1..] + [c];
      MessagesAppend(s, cs[1..], c);
    }
  }

  /** `Failures` written out check by check. */
  lemma FailuresUnfold(s: Settings)
    ensures Failures(s) ==
      (if Fails(s, DataDirMissing) then [DataDirMissing] else []) +
      (if Fails(s, ChunkSizeNotPositive) then [ChunkSizeNotPositive] else []) +
      (if Fails(s, OverlapNotBelowSize) then [OverlapNotBelowSize] else []) +
      (if Fails(s, RetrievalKNotPositive) then [RetrievalKNotPositive] else [])
  {
    var cs := AllChecks;
    assert cs[1..][1..][1..][1..] == [];
    assert Failing(s, cs[1..][1..][1..]) ==
      (if Fails(s, RetrievalKNotPositive) then [RetrievalKNotPositive] else []);
  }

  /** The warning printed when importing the module: a failed validation is
      caught and reported, never propagated. */
  method ValidateAtImport(s: Settings) returns (warning: Option<string>)
    ensures warning.Some? <==> Failures(s) != []
    ensures warning.Some? ==> warning.value == "⚠️  AVISO: " + Report(Messages(s, Failures(s)))
  {
    var errors, outcome := Validate(s);
    if outcome.Raised? {
      warning := Some("⚠️  AVISO: " + outcome.message);
    } else {
      warning := None;
    }
  }

  /** The defaults pass the three numeric checks: only a missing data
      directory can make `validate` raise with them. */
  lemma DefaultsPass(dataDir: string, dataDirExists: bool)
    ensures Failures(Defaults(dataDir, dataDirExists)) ==
      (if dataDirExists then [] else [DataDirMissing])
  {
    FailuresUnfold(Defaults(dataDir, dataDirExists));
  }

  /** A negative overlap passes the overlap check whenever the chunk size is
      positive: nothing bounds the overlap from below. */
  lemma NegativeOverlapAccepted(s: Settings)
    requires s.chunkOverlap < 0 < s.chunkSize && s.retrievalK > 0 && s.dataDirExists
    ensures Failures(s) == []
  {
    FailuresUnfold(s);
  }
}
