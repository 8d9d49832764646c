/** run_console_app: the console loop around the conversation graph. It
    reads a line, stops on an exit keyword, otherwise runs one turn and then
    appends the user's line and the agent's reply to the history that the
    next turn sees. Console input is a sequence of lines; the services of the
    `k`-th turn are `env(k)`, so a provider may behave differently from one
    turn to the next. */
module ConsoleSession {
  import opened PyStr
  import opened ConversationGraph

  const ExitKeywords := ["salir", "exit", "quit"]

  /** `user_input.lower() in ["salir", "exit", "quit"]`. */
  predicate IsExitCommand(line: string) {
    Lower(line) in ExitKeywords
  }

  /** The history entry for the user's line. */
  function UserLine(question: string): string {
    "Tú: " + question
  }

  /** The history entry for the agent's reply. */
  function AgentLine(response: string): string {
    "Agente: " + response
  }

  /** A history entry says who spoke: a user line is never an agent line, and
      each gives back the question or the response it was built from. */
  lemma HistoryLinesReadBack(question: string, response: string)
    ensures UserLine(question) != AgentLine(response)
    ensures UserLine(question)[4..] == question && AgentLine(response)[8..] == response
  {
    assert UserLine(question)[0] == 'T' && AgentLine(response)[0] == 'A';
  }

  /** The response of a turn that completed. */
  function Reply(question: string, history: seq<string>, svc: Services): string
    requires RunTurn(question, history, svc).Completed?
  {
    RunTurn(question, history, svc).final.response.value
  }

  /** How the loop ended: the farewell after an exit keyword, input that ran
      out (`input()` raising at end of file), or a turn's escaped exception. */
  datatype Ending = Farewell | EndOfInput | Crashed

  /** Entries 2k and 2k+1 of the history record the k-th turn: the user's
      line, and the reply that turn gave when it saw the history before it. */
  predicate RecordsTurn(inputs: seq<string>, env: nat -> Services, history: seq<string>, k: nat)
    requires k < |inputs| && 2 * k + 1 < |history|
  {
    && RunTurn(inputs[k], history[..2 * k], env(k)).Completed?
    && history[2 * k] == UserLine(inputs[k])
    && history[2 * k + 1] == AgentLine(Reply(inputs[k], history[..2 * k], env(k)))
  }

  /** Appending to the history keeps the record of every earlier turn. */
  lemma RecordsTurnKept(inputs: seq<string>, env: nat -> Services, history: seq<string>, entries: seq<string>, k: nat)
    requires k < |inputs| && 2 * k + 1 < |history|
    requires RecordsTurn(inputs, env, history, k)
    ensures RecordsTurn(inputs, env, history + entries, k)
  {
    assert (history + entries)[..2 * k] == history[..2 * k];
  }

  /** The two entries a completed turn appends record that turn. */
  lemma RecordsTurnNext(inputs: seq<string>, env: nat -> Services, history: seq<string>, k: nat)
    requires k < |inputs| && |history| == 2 * k
    requires RunTurn(inputs[k], history, env(k)).Completed?
    ensures RecordsTurn(inputs, env, history + [UserLine(inputs[k]), AgentLine(Reply(inputs[k], history, env(k)))], k)
  {
    var h := history + [UserLine(inputs[k]), AgentLine(Reply(inputs[k], history, env(k)))];
    assert h[..2 * k] == history;
  }

  /** A completed turn extends the record of the turns before it by one. */
  lemma RecordsTurnsExtended(inputs: seq<string>, env: nat -> Services, history: seq<string>, turns: nat, entries: seq<string>)
    requires turns < |inputs| && |history| == 2 * turns
    requires forall k :: 0 <= k < turns ==> !IsExitCommand(inputs[k]) && RecordsTurn(inputs, env, history, k)
    requires !IsExitCommand(inputs[turns]) && RunTurn(inputs[turns], history, env(turns)).Completed?
    requires entries == [UserLine(inputs[turns]), AgentLine(Reply(inputs[turns], history, env(turns)))]
    ensures forall k :: 0 <= k < turns + 1 ==> !IsExitCommand(inputs[k]) && RecordsTurn(inputs, env, history + entries, k)
  {
    forall k | 0 <= k < turns
      ensures RecordsTurn(inputs, env, history + entries, k)
    {
      RecordsTurnKept(inputs, env, history, entries, k);
    }
    RecordsTurnNext(inputs, env, history, turns);
  }

  method RunConsoleApp(inputs: seq<string>, env: nat -> Services) returns (history: seq<string>, turns: nat, ending: Ending)
    ensures turns <= |inputs| && |history| == 2 * turns
    ensures forall k :: 0 <= k < turns ==> !IsExitCommand(inputs[k]) && RecordsTurn(inputs, env, history, k)
    ensures ending == EndOfInput <==> turns == |inputs|
    ensures ending == Farewell <==> turns < |inputs| && IsExitCommand(inputs[turns])
    ensures ending == Crashed <==>
      turns < |inputs| && !IsExitCommand(inputs[turns]) && RunTurn(inputs[turns], history, env(turns)).Aborted?
  {
    history, turns, ending := [], 0, EndOfInput;
    while turns < |inputs|
      invariant turns <= |inputs| && |history| == 2 * turns
      invariant forall k :: 0 <= k < turns ==> !IsExitCommand(inputs[k]) && RecordsTurn(inputs, env, history, k)
    {
      var userInput := inputs[turns];
      if IsExitCommand(userInput) {
        ending := Farewell;
        break;
      }
      var result := RunTurn(userInput, history, env(turns));
      if result.Aborted? {
        ending := Crashed;
        break;
      }
      var entries := [UserLine(userInput), AgentLine(result.final.response.value)];
      RecordsTurnsExtended(inputs, env, history, turns, entries);
      history := history + entries;
      turns := turns + 1;
    }
  }

  /** Exit keywords match in any ASCII case. */
  lemma ExitCommandExamples()
    ensures IsExitCommand("salir") && IsExitCommand("EXIT") && IsExitCommand("Quit")
  {
    assert Lower("salir") == "salir";
    assert Lower("EXIT") == "exit";
    assert Lower("Quit") == "quit";
  }

  /** Exit keywords match only as the whole line: no surrounding whitespace
      is removed, and other words are questions. */
  lemma NonExitCommandExamples()
    ensures !IsExitCommand("exit ") && !IsExitCommand(" salir") && !IsExitCommand("adios")
  {
    assert |Lower("exit ")| == 5 && Lower("exit ")[4] == ' ';
    assert Lower(" salir")[0] == ' ';
    assert Lower("adios")[0] == 'a' && Lower("adios")[1] == 'd';
  }

  /** An exit command has four or five characters, none of them whitespace. */
  lemma ExitCommandShape(line: string)
    requires IsExitCommand(line)
    ensures |line| == 4 || |line| == 5
    ensures forall k :: 0 <= k < |line| ==> !IsWhitespace(line[k])
  {
    var lower := Lower(line);
    forall k | 0 <= k < |line|
      ensures !IsWhitespace(line[k])
    {
      assert 'a' <= lower[k] <= 'z';
    }
  }

  ghost predicate RetrieverNeverFails(svc: Services) {
    forall q :: svc.retriever(q).Passages?
  }

  /** Two questions in a row: the history after the second turn holds four
      entries, the first question, its reply, the second question, its reply. */
  method TwoTurnSession(q1: string, q2: string, env: nat -> Services) returns (history: seq<string>)
    requires !IsExitCommand(q1) && !IsExitCommand(q2)
    requires RetrieverNeverFails(env(0)) && RetrieverNeverFails(env(1))
    ensures |history| == 4
    ensures history[0] == UserLine(q1) && history[2] == UserLine(q2)
    ensures RecordsTurn([q1, q2], env, history, 0) && RecordsTurn([q1, q2], env, history, 1)
  {
    var turns, ending;
    var inputs := [q1, q2];
    history, turns, ending := RunConsoleApp(inputs, env);
    if turns < |inputs| {
      assert !IsExitCommand(inputs[turns]) && env(turns).retriever(inputs[turns]).Passages?;
      TurnCompletesUnlessRetrievalFails(inputs[turns], history, env(turns));
    }
    assert turns == 2;
    assert RecordsTurn(inputs, env, history, 0) && RecordsTurn(inputs, env, history, 1);
  }
}
