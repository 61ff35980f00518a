/** The in-memory log journal and the observable history of the bot. */
module Journal {
  import opened Client

  /** The two kinds of journal entry: `debug.log` writes `Log`, `debug.error` writes `Error`. */
  datatype LogType = Log | Error

  datatype Entry = Entry(kind: LogType, text: string)

  /** One observable step of the bot: a journal entry written, or a call made into the client. */
  datatype Effect = Logged(entry: Entry) | Issued(command: Command)

  function EntryOf(e: Effect): seq<Entry>
  {
    if e.Logged? then [e.entry] else []
  }

  function CommandOf(e: Effect): seq<Command>
  {
    if e.Issued? then [e.command] else []
  }

  /** The journal entries of a history, in order. */
  function Entries(t: seq<Effect>): seq<Entry>
  {
    if t == [] then [] else EntryOf(t[0]) + Entries(t[1..])
  }

  /** The client calls of a history, in order. */
  function Commands(t: seq<Effect>): seq<Command>
  {
    if t == [] then [] else CommandOf(t[0]) + Commands(t[1..])
  }

  /** One step of reading a history from position `k` on. */
  lemma UnfoldAt(t: seq<Effect>, k: nat)
    requires k < |t|
    ensures Entries(t[k..]) == EntryOf(t[k]) + Entries(t[k + 1..])
    ensures Commands(t[k..]) == CommandOf(t[k]) + Commands(t[k + 1..])
  {
  }

  /** A step that empties the journal: logging the session out from the console. */
  predicate Clears(e: Effect)
  {
    e == Issued(SessionLogout)
  }

  /** No step of `t` empties the journal. */
  predicate KeepsJournal(t: seq<Effect>)
  {
    forall i :: 0 <= i < |t| ==> !Clears(t[i])
  }

  /** What the journal holds after history `t`: every entry logged since the last console logout;
      never more entries than were logged. */
  function Journaled(t: seq<Effect>): (r: seq<Entry>)
    ensures |r| <= |Entries(t)|
  {
    if t == [] then []
    else
      var front, last := t[..|t| - 1], t[|t| - 1];
      assert front + [last] == t;
      EntriesAppend(front, [last]);
      assert [last][1..] == [];
      if Clears(last) then []
      else if last.Logged? then Journaled(front) + [last.entry]
      else Journaled(front)
  }

  /** The journal is always the most recent entries logged, in the order they were logged. */
  lemma {:induction false} JournalIsLatestEntries(t: seq<Effect>)
    ensures Journaled(t) == Entries(t)[|Entries(t)| - |Journaled(t)|..]
    decreases |t|
  {
    if t != [] {
      var front, last := t[..|t| - 1], t[|t| - 1];
      assert front + [last] == t;
      EntriesAppend(front, [last]);
      assert [last][1..] == [];
      JournalIsLatestEntries(front);
    }
  }

  lemma {:induction false} EntriesAppend(a: seq<Effect>, b: seq<Effect>)
    ensures Entries(a + b) == Entries(a) + Entries(b)
    decreases |a|
  {
    if a == [] {
      assert a + b == b;
    } else {
      assert (a + b)[1..] == a[1..] + b;
      EntriesAppend(a[1..], b);
    }
  }

  lemma {:induction false} CommandsAppend(a: seq<Effect>, b: seq<Effect>)
    ensures Commands(a + b) == Commands(a) + Commands(b)
    decreases |a|
  {
    if a == [] {
      assert a + b == b;
    } else {
      assert (a + b)[1..] == a[1..] + b;
      CommandsAppend(a[1..], b);
    }
  }

  /** A history made only of log steps calls nothing, and its entries are its steps' entries, in order. */
  lemma {:induction false} OnlyLogged(t: seq<Effect>)
    requires forall i :: 0 <= i < |t| ==> t[i].Logged?
    ensures Commands(t) == []
    ensures |Entries(t)| == |t| && forall i :: 0 <= i < |t| ==> Entries(t)[i] == t[i].entry
    decreases |t|
  {
    if t != [] {
      OnlyLogged(t[1..]);
      assert Entries(t) == [t[0].entry] + Entries(t[1..]);
    }
  }

  /** Reads a history that starts by logging an entry and then making two client calls. */
  lemma ReadLogThenCalls(e: Entry, c: Command, d: Command, t: seq<Effect>)
    ensures Entries([Logged(e), Issued(c), Issued(d)] + t) == [e] + Entries(t)
    ensures Commands([Logged(e), Issued(c), Issued(d)] + t) == [c, d] + Commands(t)
  {
    var t2 := [Issued(d)] + t;
    var t1 := [Issued(c)] + t2;
    var t0 := [Logged(e)] + t1;
    assert [Logged(e), Issued(c), Issued(d)] + t == t0;
    assert t2[1..] == t && t1[1..] == t2 && t0[1..] == t1;
    assert Entries(t2) == Entries(t) && Commands(t2) == [d] + Commands(t);
    assert Entries(t1) == Entries(t) && Commands(t1) == [c, d] + Commands(t);
  }

  /** Reads a one-step history. */
  lemma ReadOne(a: Effect)
    ensures Entries([a]) == EntryOf(a)
    ensures Commands([a]) == CommandOf(a)
  {
    assert [a][1..] == [];
  }

  /** Reads a two-step history. */
  lemma ReadPair(a: Effect, b: Effect)
    ensures Entries([a, b]) == EntryOf(a) + EntryOf(b)
    ensures Commands([a, b]) == CommandOf(a) + CommandOf(b)
  {
    UnfoldAt([a, b], 0);
    UnfoldAt([a, b], 1);
    assert [a, b][0..] == [a, b];
    assert [a, b][2..] == [];
  }

  /** Steps that do not clear the journal only ever add their own entries at its end. */
  lemma {:induction false} JournaledAppend(t: seq<Effect>, r: seq<Effect>)
    requires KeepsJournal(r)
    ensures Journaled(t + r) == Journaled(t) + Entries(r)
    decreases |r|
  {
    if r == [] {
      assert t + r == t;
    } else {
      var front, last := r[..|r| - 1], r[|r| - 1];
      assert r == front + [last];
      assert (t + r)[..|t + r| - 1] == t + front;
      JournaledAppend(t, front);
      EntriesAppend(front, [last]);
    }
  }

  /** Regroups a history split in three. */
  lemma Regroup(a: seq<Effect>, b: seq<Effect>, c: seq<Effect>)
    ensures (a + b) + c == a + (b + c)
  {
  }

  /** After a console logout the journal holds exactly the entries logged since. */
  lemma ClearThenAppend(t: seq<Effect>, r: seq<Effect>)
    requires KeepsJournal(r)
    ensures Journaled(t + [Issued(SessionLogout)] + r) == Entries(r)
  {
    var c := t + [Issued(SessionLogout)];
    assert c[..|c| - 1] == t;
    assert Journaled(c) == [];
    JournaledAppend(c, r);
  }

  /** Where `console[log.type]` sends an entry: standard output or standard error. */
  datatype Stream = Stdout | Stderr

  datatype ConsoleLine = ConsoleLine(stream: Stream, text: string)

  function Printed(e: Entry): (l: ConsoleLine)
    ensures l.text == e.text
    ensures l.stream == Stderr <==> e.kind == Error
  {
    ConsoleLine(if e.kind == Log then Stdout else Stderr, e.text)
  }
}
