/**
 The retirement rules every snapshot validator enforces: an order, a map of retired fences, a high-water mark and the
 fences of live assignments.
 */
module Retirements {
  import opened Text

  datatype Rank = Rank(protocol: string, port: nat, generation: nat, assignmentId: string)

  // The strict lexicographic order the retirements must follow.
  predicate Below(a: Rank, b: Rank) {
    || Less(a.protocol, b.protocol)
    || (a.protocol == b.protocol &&
        (|| a.port < b.port
         || (a.port == b.port &&
             (|| a.generation < b.generation
              || (a.generation == b.generation && Less(a.assignmentId, b.assignmentId))))))
  }

  lemma BelowIsStrictOrder(a: Rank, b: Rank, c: Rank)
    ensures !Below(a, a)
    ensures Below(a, b) && Below(b, c) ==> Below(a, c)
    ensures Below(a, b) || Below(b, a) || a == b
    ensures !(Below(a, b) && Below(b, a))
  {
    CompareEqual(a.protocol, b.protocol);
    CompareEqual(a.assignmentId, b.assignmentId);
    CompareEqual(a.protocol, a.protocol);
    CompareEqual(a.assignmentId, a.assignmentId);
    if Less(a.protocol, b.protocol) && Less(b.protocol, c.protocol) {
      LessTransitive(a.protocol, b.protocol, c.protocol);
    }
    if Less(a.assignmentId, b.assignmentId) && Less(b.assignmentId, c.assignmentId) {
      LessTransitive(a.assignmentId, b.assignmentId, c.assignmentId);
    }
  }

  // A retirement: its place in the order, and the protocol and fence it is keyed by. Transit keys by TCP always.
  datatype Mark = Mark(rank: Rank, protocol: string, fence: nat)

  // A live assignment's physical slot and fence.
  datatype Live = Live(protocol: string, port: nat, fence: nat)

  function Key(m: Mark): string {
    Join(m.protocol, Join(Decimal(m.rank.port), Decimal(m.fence)))
  }

  predicate SameFence(a: Mark, b: Mark) {
    a.protocol == b.protocol && a.rank.port == b.rank.port && a.fence == b.fence
  }

  lemma MarkKeys(a: Mark, b: Mark)
    requires SlashFree(a.protocol) && SlashFree(b.protocol)
    ensures Key(a) == Key(b) <==> SameFence(a, b)
  {
    if Key(a) == Key(b) {
      JoinInjective(a.protocol, Join(Decimal(a.rank.port), Decimal(a.fence)), b.protocol, Join(Decimal(b.rank.port), Decimal(b.fence)));
      DecimalSlashFree(a.rank.port);
      DecimalSlashFree(b.rank.port);
      JoinInjective(Decimal(a.rank.port), Decimal(a.fence), Decimal(b.rank.port), Decimal(b.fence));
      DecimalInjective(a.rank.port, b.rank.port);
      DecimalInjective(a.fence, b.fence);
    }
  }

  predicate Revives(l: Live, m: Mark) {
    l.protocol == m.protocol && l.port == m.rank.port && l.fence <= m.fence
  }

  ghost predicate InOrder(marks: seq<Mark>) {
    forall i, j :: 0 <= i < j < |marks| ==> Below(marks[i].rank, marks[j].rank) && !SameFence(marks[i], marks[j])
  }

  // Every live fence of the retired slot is above the retired one.
  ghost predicate Fenced(lives: seq<Live>, m: Mark) {
    forall k :: 0 <= k < |lives| ==> !Revives(lives[k], m)
  }

  // Retirements ascend, none repeats a retired fence or comes from the future, and every live fence is above every
  // retired fence of its slot.
  ghost predicate Acceptable(generation: nat, lives: seq<Live>, marks: seq<Mark>) {
    && InOrder(marks)
    && forall i :: 0 <= i < |marks| ==> marks[i].rank.generation <= generation && Fenced(lives, marks[i])
  }

  // A retirement's place in the order and the key of the fence it retires.
  datatype Entry = Entry(rank: Rank, key: string)

  predicate Follows(a: Entry, b: Entry) {
    Below(a.rank, b.rank) && a.key != b.key
  }

  ghost predicate Ordered(entries: seq<Entry>) {
    forall i, j :: 0 <= i < j < |entries| ==> Follows(entries[i], entries[j])
  }

  function Retired(entries: seq<Entry>): set<string> {
    set k | 0 <= k < |entries| :: entries[k].key
  }

  // What a validator compares a retirement with: its neighbour and the retired fences.
  predicate Admits(entries: seq<Entry>, e: Entry) {
    e.key !in Retired(entries) && (entries == [] || Below(entries[|entries| - 1].rank, e.rank))
  }

  predicate Neighbour(entries: seq<Entry>, i: nat)
    requires i < |entries|
  {
    i == 0 || Below(entries[i - 1].rank, entries[i].rank)
  }

  lemma RetiredGrows(entries: seq<Entry>, e: Entry)
    ensures Retired(entries + [e]) == Retired(entries) + {e.key}
  {
    var now := entries + [e];
    forall key | key in Retired(entries) ensures key in Retired(now) {
      var k :| 0 <= k < |entries| && key == entries[k].key;
      assert now[k] == entries[k];
    }
    assert now[|entries|].key in Retired(now);
  }

  lemma AdmitsMeansFollows(entries: seq<Entry>, e: Entry)
    requires Ordered(entries)
    ensures Admits(entries, e) <==> Ordered(entries + [e])
  {
    var n := |entries|;
    if Admits(entries, e) {
      forall k | 0 <= k < n ensures Follows(entries[k], e) {
        assert entries[k].key in Retired(entries);
        if k < n - 1 {
          assert Follows(entries[k], entries[n - 1]);
          BelowIsStrictOrder(entries[k].rank, entries[n - 1].rank, e.rank);
        }
      }
    }
    if Ordered(entries + [e]) {
      forall k | 0 <= k < n ensures Follows(entries[k], e) {
        assert Follows((entries + [e])[k], (entries + [e])[n]);
      }
    }
  }

  // One turn of the loop: comparing with the neighbour and the map is comparing with every earlier retirement.
  lemma Retire(entries: seq<Entry>, i: nat)
    requires i < |entries| && Ordered(entries[..i])
    ensures entries[i].key !in Retired(entries[..i]) && Neighbour(entries, i) ==> Ordered(entries[..i + 1])
    ensures entries[i].key in Retired(entries[..i]) || !Neighbour(entries, i) ==> !Ordered(entries)
    ensures Retired(entries[..i + 1]) == Retired(entries[..i]) + {entries[i].key}
  {
    assert entries[..i + 1] == entries[..i] + [entries[i]];
    RetiredGrows(entries[..i], entries[i]);
    AdmitsMeansFollows(entries[..i], entries[i]);
    if Ordered(entries) {
      assert forall j, k :: 0 <= j < k <= i ==> Follows(entries[j], entries[k]);
    }
  }

  // Every retirement with its key. Two keys are equal exactly if the retired fences are.
  method Entries(marks: seq<Mark>) returns (entries: seq<Entry>)
    requires forall i :: 0 <= i < |marks| ==> SlashFree(marks[i].protocol)
    ensures |entries| == |marks| && forall i :: 0 <= i < |entries| ==> entries[i].rank == marks[i].rank
    ensures Ordered(entries) <==> InOrder(marks)
  {
    entries := seq(|marks|, i requires 0 <= i < |marks| => Entry(marks[i].rank, Key(marks[i])));
    forall i, j | 0 <= i < j < |marks|
      ensures Follows(entries[i], entries[j]) <==> Below(marks[i].rank, marks[j].rank) && !SameFence(marks[i], marks[j])
    {
      MarkKeys(marks[i], marks[j]);
    }
  }

  method FindRevived(lives: seq<Live>, m: Mark) returns (found: bool)
    ensures found <==> !Fenced(lives, m)
  {
    for k := 0 to |lives|
      invariant forall j :: 0 <= j < k ==> !Revives(lives[j], m)
    {
      if lives[k].protocol == m.protocol && lives[k].port == m.rank.port && lives[k].fence <= m.fence {
        assert Revives(lives[k], m);
        return true;
      }
    }
    return false;
  }

  datatype Verdict = Admitted | HighWater | OutOfOrder | Revived

  // The retired map after the first `i` retirements, all of them in order.
  ghost predicate Processed(generation: nat, lives: seq<Live>, marks: seq<Mark>, entries: seq<Entry>, i: nat, retired: set<string>)
    requires i <= |marks| == |entries|
  {
    && retired == Retired(entries[..i]) && Ordered(entries[..i])
    && forall k :: 0 <= k < i ==> marks[k].rank.generation <= generation && Fenced(lives, marks[k])
  }

  // One turn of a retirement loop; `sorted` is the validator's own comparison with the neighbour.
  method TryRetire(generation: nat, lives: seq<Live>, marks: seq<Mark>, entries: seq<Entry>, i: nat, retired: set<string>, sorted: bool)
    returns (v: Verdict, r: set<string>)
    requires i < |marks| == |entries| && (forall k :: 0 <= k < |entries| ==> entries[k].rank == marks[k].rank)
    requires Ordered(entries) <==> InOrder(marks)
    requires Processed(generation, lives, marks, entries, i, retired) && sorted == (i == 0 || Below(marks[i - 1].rank, marks[i].rank))
    ensures v.Admitted? ==> Processed(generation, lives, marks, entries, i + 1, r)
    ensures !v.Admitted? ==> !Acceptable(generation, lives, marks)
    ensures v.Revived? ==> !Fenced(lives, marks[i])
  {
    Retire(entries, i);
    assert sorted == Neighbour(entries, i);
    r := retired;
    if entries[i].key in retired || marks[i].rank.generation > generation {
      return HighWater, r;
    }
    r := retired + {entries[i].key};
    if !sorted {
      return OutOfOrder, r;
    }
    var revived := FindRevived(lives, marks[i]);
    return if revived then Revived else Admitted, r;
  }

  lemma AllProcessed(generation: nat, lives: seq<Live>, marks: seq<Mark>, entries: seq<Entry>, retired: set<string>)
    requires |entries| == |marks| && (Ordered(entries) <==> InOrder(marks))
    requires Processed(generation, lives, marks, entries, |marks|, retired)
    ensures Acceptable(generation, lives, marks)
  {
    assert entries[..|entries|] == entries;
  }
}
