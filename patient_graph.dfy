/** The patient node: the simulated patient answers the doctor, and the
    symptoms its reply mentions are recorded. */
module PatientGraph {
  import opened Wrappers
  import opened Text
  import opened Messages

  datatype PatientState = PatientState(messages: seq<Message>, revealedSymptoms: seq<string>, conversationEnd: bool)

  /** One row of the symptom table: a symptom and the words that reveal it. */
  datatype SymptomRow = SymptomRow(symptom: string, keywords: seq<string>)

  /** The symptom table, in its iteration order. */
  const SymptomKeywords: seq<SymptomRow> := [
    SymptomRow("headache", ["headache", "head hurt", "head pain"]),
    SymptomRow("fatigue", ["tired", "fatigue", "exhausted", "no energy"]),
    SymptomRow("nausea", ["nausea", "nauseous", "sick", "queasy"])
  ]

  /** The reply used when the completion call fails, written as its words
      before "that?" and that last word. */
  const FallbackReply: string := FallbackOpening + "that?"
  const FallbackOpening: string := "Sorry " + "doctor, " + "could " + "you " + "please " + "repeat "

  /** The patient's reply: the generated text without surrounding
      whitespace, or the fallback. */
  function Reply(gen: Generation): string
  {
    match gen
    case Generated(text) => Strip(text)
    case Failed => FallbackReply
  }

  /** The symptoms of `table` that are not yet in `revealed` and one of whose
      keywords occurs in `replyLower`, in table order. */
  function NewSymptoms(table: seq<SymptomRow>, revealed: seq<string>, replyLower: string): seq<string>
  {
    if table == [] then []
    else
      var row := table[|table| - 1];
      NewSymptoms(table[..|table| - 1], revealed, replyLower) +
        (if row.symptom !in revealed && ContainsAny(replyLower, row.keywords) then [row.symptom] else [])
  }

  /** The state the node returns. */
  function Transition(s: PatientState, gen: Generation): PatientState
  {
    var reply := Reply(gen);
    PatientState(
      s.messages + [Ai(reply)],
      s.revealedSymptoms + NewSymptoms(SymptomKeywords, s.revealedSymptoms, Lower(reply)),
      s.conversationEnd)
  }

  /** The symptom scan: a loop over the table that collects each symptom not
      yet revealed whose keywords occur in the lowercase reply. */
  method ScanSymptoms(revealed: seq<string>, replyLower: string) returns (found: seq<string>)
    ensures found == NewSymptoms(SymptomKeywords, revealed, replyLower)
    ensures forall x :: x in found <==>
      x !in revealed && exists k :: 0 <= k < |SymptomKeywords| && SymptomKeywords[k].symptom == x && ContainsAny(replyLower, SymptomKeywords[k].keywords)
  {
    found := [];
    for i := 0 to |SymptomKeywords|
      invariant found == NewSymptoms(SymptomKeywords[..i], revealed, replyLower)
    {
      assert SymptomKeywords[..i + 1][..i] == SymptomKeywords[..i];
      var row := SymptomKeywords[i];
      if row.symptom !in revealed {
        if ContainsAny(replyLower, row.keywords) {
          found := found + [row.symptom];
        }
      }
    }
    assert SymptomKeywords[..|SymptomKeywords|] == SymptomKeywords;
    forall x ensures x in found <==>
      x !in revealed && exists k :: 0 <= k < |SymptomKeywords| && SymptomKeywords[k].symptom == x && ContainsAny(replyLower, SymptomKeywords[k].keywords)
    {
      NewSymptomIff(SymptomKeywords, revealed, replyLower, x);
    }
  }

  /** The reversed scan for the last doctor message (lowercased). The node
      computes it and does not use it. */
  method LastDoctorMessage(messages: seq<Message>) returns (last: Option<string>)
    ensures last.None? <==> forall i :: 0 <= i < |messages| ==> messages[i].Ai?
    ensures last.Some? ==> exists i :: 0 <= i < |messages| && messages[i].Human? && last.value == Lower(messages[i].content) &&
                                       (forall j :: i < j < |messages| ==> messages[j].Ai?)
  {
    last := None;
    var i := |messages|;
    while i > 0
      invariant 0 <= i <= |messages|
      invariant forall j :: i <= j < |messages| ==> messages[j].Ai?
    {
      i := i - 1;
      if messages[i].Human? {
        last := Some(Lower(messages[i].content));
        return;
      }
    }
  }

  /** `patient_node`: exactly one completion call, with the persona prompt
      (amended when the consultation is ending) and the whole history. */
  method PatientNode(s: PatientState, gen: Generation) returns (out: PatientState, call: ProviderCall)
    ensures out == Transition(s, gen)
    ensures call == ProviderCall(PatientPersona(s.conversationEnd), ProviderHistory(s.messages))
  {
    var messages, revealed, conversationEnd := s.messages, s.revealedSymptoms, s.conversationEnd;
    var history := ToProviderMessages(messages);
    var lastHuman := LastDoctorMessage(messages);
    call := ProviderCall(PatientPersona(conversationEnd), history);

    var reply := Reply(gen);

    var newSymptoms := ScanSymptoms(revealed, Lower(reply));
    out := PatientState(messages + [Ai(reply)], revealed + newSymptoms, conversationEnd);
  }

  /** A symptom is newly revealed exactly when it is not yet revealed and one
      of its keywords occurs in the lowercase reply. */
  lemma {:induction false} NewSymptomIff(table: seq<SymptomRow>, revealed: seq<string>, replyLower: string, x: string)
    ensures x in NewSymptoms(table, revealed, replyLower) <==>
      x !in revealed && exists k :: 0 <= k < |table| && table[k].symptom == x && ContainsAny(replyLower, table[k].keywords)
  {
    if table != [] {
      var front := table[..|table| - 1];
      NewSymptomIff(front, revealed, replyLower, x);
      if x !in revealed && exists k :: 0 <= k < |table| && table[k].symptom == x && ContainsAny(replyLower, table[k].keywords) {
        var k :| 0 <= k < |table| && table[k].symptom == x && ContainsAny(replyLower, table[k].keywords);
        if k < |table| - 1 {
          assert front[k] == table[k];
        }
      }
      if exists k :: 0 <= k < |front| && front[k].symptom == x && ContainsAny(replyLower, front[k].keywords) {
        var k :| 0 <= k < |front| && front[k].symptom == x && ContainsAny(replyLower, front[k].keywords);
        assert table[k] == front[k];
      }
    }
  }

  /** `a` is `b` with some elements left out, the rest in the same order. */
  predicate IsSubsequence<T(==)>(a: seq<T>, b: seq<T>)
    decreases |b|
  {
    if b == [] then a == []
    else if a != [] && a[|a| - 1] == b[|b| - 1] then IsSubsequence(a[..|a| - 1], b[..|b| - 1])
    else IsSubsequence(a, b[..|b| - 1])
  }

  predicate NoDuplicates<T(==)>(s: seq<T>)
  {
    forall i, j :: 0 <= i < j < |s| ==> s[i] != s[j]
  }

  function Symptoms(table: seq<SymptomRow>): (names: seq<string>)
    ensures |names| == |table|
    ensures forall k :: 0 <= k < |table| ==> names[k] == table[k].symptom
  {
    seq(|table|, k requires 0 <= k < |table| => table[k].symptom)
  }

  /** The new symptoms appear in table order. */
  lemma {:induction false} NewSymptomsInTableOrder(table: seq<SymptomRow>, revealed: seq<string>, replyLower: string)
    ensures IsSubsequence(NewSymptoms(table, revealed, replyLower), Symptoms(table))
  {
    if table != [] {
      var front := table[..|table| - 1];
      var ns := NewSymptoms(table, revealed, replyLower);
      var nf := NewSymptoms(front, revealed, replyLower);
      NewSymptomsInTableOrder(front, revealed, replyLower);
      assert Symptoms(table)[..|table| - 1] == Symptoms(front);
      if ns != nf {
        assert ns[..|ns| - 1] == nf;
      } else {
        SubsequenceOfShorter(nf, Symptoms(front), Symptoms(table));
      }
    }
  }

  lemma SubsequenceOfShorter<T>(a: seq<T>, b: seq<T>, c: seq<T>)
    requires c != [] && b == c[..|c| - 1]
    requires IsSubsequence(a, b)
    ensures IsSubsequence(a, c)
    decreases |c|, 1
  {
    if a != [] && a[|a| - 1] == c[|c| - 1] {
      SubsequenceDropLast(a, b);
    }
  }

  lemma SubsequenceDropLast<T>(a: seq<T>, b: seq<T>)
    requires a != [] && IsSubsequence(a, b)
    ensures IsSubsequence(a[..|a| - 1], b)
    decreases |b|, 2
  {
    if b != [] {
      if a[|a| - 1] == b[|b| - 1] {
        if a[..|a| - 1] != [] {
          SubsequenceDropLast(a[..|a| - 1], b[..|b| - 1]);
          SubsequenceOfShorter(a[..|a| - 1][..|a| - 2], b[..|b| - 1], b);
        }
      } else {
        SubsequenceDropLast(a, b[..|b| - 1]);
        SubsequenceOfShorter(a[..|a| - 1], b[..|b| - 1], b);
      }
    }
  }

  /** Distinct table symptoms give distinct new symptoms. */
  lemma {:induction false} NewSymptomsDistinct(table: seq<SymptomRow>, revealed: seq<string>, replyLower: string)
    requires NoDuplicates(Symptoms(table))
    ensures NoDuplicates(NewSymptoms(table, revealed, replyLower))
  {
    if table != [] {
      var front := table[..|table| - 1];
      var last := table[|table| - 1];
      assert Symptoms(front) == Symptoms(table)[..|table| - 1];
      NewSymptomsDistinct(front, revealed, replyLower);
      var nf := NewSymptoms(front, revealed, replyLower);
      NewSymptomIff(front, revealed, replyLower, last.symptom);
      forall k | 0 <= k < |front| ensures front[k].symptom != last.symptom {
        assert Symptoms(table)[k] == front[k].symptom;
      }
    }
  }

  /** The table names three different symptoms. */
  lemma TableSymptomsDistinct()
    ensures Symptoms(SymptomKeywords) == ["headache", "fatigue", "nausea"]
    ensures NoDuplicates(Symptoms(SymptomKeywords))
  {
  }

  /** A turn appends exactly one patient message, holding the reply. */
  lemma OneReplyAppended(s: PatientState, gen: Generation)
    ensures Transition(s, gen).messages == s.messages + [Ai(Reply(gen))]
  {
  }

  /** `conversation_end` passes through the node unchanged. */
  lemma ConversationEndPassesThrough(s: PatientState, gen: Generation)
    ensures Transition(s, gen).conversationEnd == s.conversationEnd
  {
  }

  /** The revealed symptoms only grow: the old list is a prefix of the new
      one, and what is added are the new symptoms in table order, each one
      not revealed before. */
  lemma RevealedSymptomsGrow(s: PatientState, gen: Generation)
    ensures var r := Transition(s, gen).revealedSymptoms;
      && |s.revealedSymptoms| <= |r|
      && r[..|s.revealedSymptoms|] == s.revealedSymptoms
      && IsSubsequence(r[|s.revealedSymptoms|..], ["headache", "fatigue", "nausea"])
      && forall i :: |s.revealedSymptoms| <= i < |r| ==> r[i] !in s.revealedSymptoms
  {
    var r := Transition(s, gen).revealedSymptoms;
    var ns := NewSymptoms(SymptomKeywords, s.revealedSymptoms, Lower(Reply(gen)));
    assert r[|s.revealedSymptoms|..] == ns;
    NewSymptomsInTableOrder(SymptomKeywords, s.revealedSymptoms, Lower(Reply(gen)));
    TableSymptomsDistinct();
    forall i | |s.revealedSymptoms| <= i < |r| ensures r[i] !in s.revealedSymptoms {
      assert r[i] == ns[i - |s.revealedSymptoms|];
      NewSymptomIff(SymptomKeywords, s.revealedSymptoms, Lower(Reply(gen)), r[i]);
    }
  }

  /** A revealed-symptom list without duplicates stays without duplicates. */
  lemma NoDuplicateSymptoms(s: PatientState, gen: Generation)
    requires NoDuplicates(s.revealedSymptoms)
    ensures NoDuplicates(Transition(s, gen).revealedSymptoms)
  {
    var old_ := s.revealedSymptoms;
    var ns := NewSymptoms(SymptomKeywords, old_, Lower(Reply(gen)));
    var r := old_ + ns;
    TableSymptomsDistinct();
    NewSymptomsDistinct(SymptomKeywords, old_, Lower(Reply(gen)));
    forall i, j | 0 <= i < j < |r| ensures r[i] != r[j] {
      if j >= |old_| {
        assert r[j] == ns[j - |old_|];
        NewSymptomIff(SymptomKeywords, old_, Lower(Reply(gen)), r[j]);
        if i < |old_| {
          assert r[i] in old_;
        } else {
          assert r[i] == ns[i - |old_|];
        }
      }
    }
  }

  /** No character of the words before "that?" lowers into i, f, x, n, q
      or h. */
  lemma FallbackOpeningAvoids()
    ensures NoneLowersInto(FallbackOpening, {'i', 'f', 'x', 'n', 'q', 'h'})
  {
    var ds := {'i', 'f', 'x', 'n', 'q', 'h'};
    NoneLowersIntoAppend("Sorry ", "doctor, ", ds);
    NoneLowersIntoAppend("Sorry " + "doctor, ", "could ", ds);
    NoneLowersIntoAppend("Sorry " + "doctor, " + "could ", "you ", ds);
    NoneLowersIntoAppend("Sorry " + "doctor, " + "could " + "you ", "please ", ds);
    NoneLowersIntoAppend("Sorry " + "doctor, " + "could " + "you " + "please ", "repeat ", ds);
  }

  /** No character of the fallback reply lowers into i, f, x, n or q. */
  lemma FallbackAvoidsLetters()
    ensures NoneLowersInto(FallbackReply, {'i', 'f', 'x', 'n', 'q'})
  {
    FallbackOpeningAvoids();
    NoneLowersIntoAppend(FallbackOpening, "that?", {'i', 'f', 'x', 'n', 'q'});
  }

  lemma FallbackLowerAvoidsLetters()
    ensures forall d :: d in {'i', 'f', 'x', 'n', 'q'} ==> d !in Lower(FallbackReply)
  {
    FallbackAvoidsLetters();
    LowerAvoids(FallbackReply, {'i', 'f', 'x', 'n', 'q'});
  }

  /** Nowhere in the fallback reply does "he" follow lowering. */
  lemma FallbackLacksHe()
    ensures NoLowerPair(FallbackReply, 'h', 'e')
  {
    FallbackOpeningAvoids();
    assert NoneLowersInto(FallbackOpening, {'h'});
    NoLowerPairWithout(FallbackOpening, 'h', 'e');
    NoLowerPairAppend(FallbackOpening, "that?", 'h', 'e');
  }

  /** None of the headache row's keywords, each of which starts with "he",
      occurs in the lowercase fallback reply. */
  lemma FallbackLacksHeadKeywords()
    ensures !Contains(Lower(FallbackReply), "headache")
    ensures !Contains(Lower(FallbackReply), "head hurt")
    ensures !Contains(Lower(FallbackReply), "head pain")
  {
    FallbackLacksHe();
    LowerAbsentPair(FallbackReply, "headache", 0);
    LowerAbsentPair(FallbackReply, "head hurt", 0);
    LowerAbsentPair(FallbackReply, "head pain", 0);
  }

  /** A row matches no text that lacks each of its keywords. */
  lemma RowAbsent(l: string, k: nat)
    requires k < |SymptomKeywords|
    requires forall w :: w in SymptomKeywords[k].keywords ==> !Contains(l, w)
    ensures !ContainsAny(l, SymptomKeywords[k].keywords)
  {
  }

  lemma HeadacheRowAbsent(l: string)
    requires !Contains(l, "headache") && !Contains(l, "head hurt") && !Contains(l, "head pain")
    ensures !ContainsAny(l, SymptomKeywords[0].keywords)
  {
    RowAbsent(l, 0);
  }

  lemma FatigueRowAbsent(l: string)
    requires forall d :: d in {'i', 'f', 'x', 'n', 'q'} ==> d !in l
    ensures !ContainsAny(l, SymptomKeywords[1].keywords)
  {
    AbsentChar(l, "tired", 1);
    AbsentChar(l, "fatigue", 0);
    AbsentChar(l, "exhausted", 1);
    AbsentChar(l, "no energy", 0);
    RowAbsent(l, 1);
  }

  lemma NauseaRowAbsent(l: string)
    requires forall d :: d in {'i', 'f', 'x', 'n', 'q'} ==> d !in l
    ensures !ContainsAny(l, SymptomKeywords[2].keywords)
  {
    AbsentChar(l, "nausea", 0);
    AbsentChar(l, "nauseous", 0);
    AbsentChar(l, "sick", 1);
    AbsentChar(l, "queasy", 0);
    RowAbsent(l, 2);
  }

  /** A lowercase reply that matches no row reveals nothing. */
  lemma {:induction false} NoRowNothingNew(table: seq<SymptomRow>, revealed: seq<string>, l: string)
    requires forall k :: 0 <= k < |table| ==> !ContainsAny(l, table[k].keywords)
    ensures NewSymptoms(table, revealed, l) == []
  {
    if table != [] {
      NoRowNothingNew(table[..|table| - 1], revealed, l);
    }
  }

  lemma AllRowsAbsent(l: string)
    requires !ContainsAny(l, SymptomKeywords[0].keywords)
    requires !ContainsAny(l, SymptomKeywords[1].keywords)
    requires !ContainsAny(l, SymptomKeywords[2].keywords)
    ensures forall k :: 0 <= k < |SymptomKeywords| ==> !ContainsAny(l, SymptomKeywords[k].keywords)
  {
  }

  lemma FallbackHasNoHeadacheWord()
    ensures !ContainsAny(Lower(FallbackReply), SymptomKeywords[0].keywords)
  {
    FallbackLacksHeadKeywords();
    HeadacheRowAbsent(Lower(FallbackReply));
  }

  lemma FallbackHasNoFatigueWord()
    ensures !ContainsAny(Lower(FallbackReply), SymptomKeywords[1].keywords)
  {
    FallbackLowerAvoidsLetters();
    FatigueRowAbsent(Lower(FallbackReply));
  }

  lemma FallbackHasNoNauseaWord()
    ensures !ContainsAny(Lower(FallbackReply), SymptomKeywords[2].keywords)
  {
    FallbackLowerAvoidsLetters();
    NauseaRowAbsent(Lower(FallbackReply));
  }

  /** The lowercase fallback reply matches no keyword of the table. */
  lemma FallbackMatchesNoRow()
    ensures forall k :: 0 <= k < |SymptomKeywords| ==> !ContainsAny(Lower(FallbackReply), SymptomKeywords[k].keywords)
  {
    FallbackHasNoHeadacheWord();
    FallbackHasNoFatigueWord();
    FallbackHasNoNauseaWord();
    AllRowsAbsent(Lower(FallbackReply));
  }

  /** The fallback reply mentions no symptom, so a failed call reveals
      nothing new. */
  lemma FallbackRevealsNothing(s: PatientState)
    ensures Transition(s, Failed).revealedSymptoms == s.revealedSymptoms
  {
    FallbackMatchesNoRow();
    NoRowNothingNew(SymptomKeywords, s.revealedSymptoms, Lower(FallbackReply));
  }
}
