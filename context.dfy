/**
 * Conversation turns and the context window sent upstream: the fixed system
 * instruction followed by the trailing turns of a session's history.
 */
module Context {

  datatype Role = System | User | Assistant

  /** One message of a conversation. */
  datatype Turn = Turn(role: Role, content: string)

  /** How many trailing history turns the window keeps (five exchanges). */
  const HistoryLimit: nat := 10

  const SystemPrompt: string :=
    "You are a helpful AI assistant. Provide clear, accurate, and helpful responses. When showing code, use proper formatting."

  /** The instruction turn that opens every window. */
  const SystemTurn: Turn := Turn(System, SystemPrompt)

  function Min(a: int, b: int): int {
    if a <= b then a else b
  }

  /**
   * `Array.prototype.slice(start)`: a negative start counts back from the end
   * and is clamped at the front, a start past the end gives the empty slice.
   */
  function SliceFrom<T>(s: seq<T>, start: int): (r: seq<T>)
    ensures start < 0 ==> |r| == Min(-start, |s|)
    ensures 0 <= start ==> |r| == if start <= |s| then |s| - start else 0
  {
    var from := if start < 0 then (if |s| + start < 0 then 0 else |s| + start)
                else if start <= |s| then start else |s|;
    s[from..]
  }

  /** A slice from any start is a suffix of the sequence. */
  lemma SliceFromIsSuffix<T>(s: seq<T>, start: int)
    ensures SliceFrom(s, start) == s[|s| - |SliceFrom(s, start)|..]
  {
  }

  /** The history turns kept for context: the last `HistoryLimit` of them. */
  function Recent(history: seq<Turn>): (r: seq<Turn>)
    ensures |r| == Min(HistoryLimit, |history|)
  {
    SliceFrom(history, -(HistoryLimit as int))
  }

  /** The messages sent upstream: the system turn, then the recent history. */
  function Window(history: seq<Turn>): seq<Turn> {
    [SystemTurn] + Recent(history)
  }

  /**
   * A window holds the system turn and then the last min(10, |history|)
   * turns of the history, oldest first.
   */
  lemma WindowShape(history: seq<Turn>)
    ensures |Window(history)| == 1 + Min(HistoryLimit, |history|)
    ensures Window(history)[0] == SystemTurn
    ensures Window(history)[1..] == history[|history| - Min(HistoryLimit, |history|)..]
  {
    assert Window(history)[1..] == Recent(history);
  }

  /**
   * A window always ends with the newest turn of the history it was built
   * from, and keeps every turn when the history fits.
   */
  lemma WindowEndsWithNewest(history: seq<Turn>, t: Turn)
    ensures Window(history + [t])[|Window(history + [t])| - 1] == t
    ensures |history + [t]| <= HistoryLimit ==> Window(history + [t]) == [SystemTurn] + history + [t]
  {
    var h := history + [t];
    var w := Window(h);
    assert w[1..] == Recent(h);
    assert h == h[..|h| - |Recent(h)|] + Recent(h);
    assert Recent(h)[|Recent(h)| - 1] == h[|h| - 1];
    if |h| <= HistoryLimit {
      assert h[..0] == [];
    }
  }

  /**
   * Once the history holds more than `HistoryLimit` turns, the window drops
   * the oldest ones: for an eleventh turn, turns 2 to 11 follow the system turn.
   */
  lemma {:induction false} WindowDropsOldest(history: seq<Turn>)
    requires |history| > HistoryLimit
    ensures Window(history) == [SystemTurn] + history[|history| - HistoryLimit..]
  {
    var r := Recent(history);
    assert history == history[..|history| - HistoryLimit] + r;
    assert r == history[|history| - HistoryLimit..];
  }
}
