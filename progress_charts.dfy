/** The group-by reductions of the progress charts
    (components/analytics/progress-charts.tsx). Each `reduce` mutates an
    accumulator dictionary in place; here the dictionary is a map together
    with the sequence of its keys in insertion order, the order
    `Object.entries` lists them in for non-numeric keys. */
module ProgressCharts {
  import opened Rows
  import Seqs

  /** The column a reduction groups by. */
  datatype Field = Category | Difficulty | Status

  function FieldOf(r: Roadmap, f: Field): string {
    match f
    case Category => r.category
    case Difficulty => r.difficulty
    case Status => r.status
  }

  /** The grouped column of every roadmap, in input order. */
  function Column(rs: seq<Roadmap>, f: Field): (vs: seq<string>)
    ensures |vs| == |rs|
  {
    if |rs| == 0 then [] else Column(rs[..|rs| - 1], f) + [FieldOf(rs[|rs| - 1], f)]
  }

  lemma {:induction false} ColumnAt(rs: seq<Roadmap>, f: Field, i: nat)
    requires i < |rs|
    ensures Column(rs, f)[i] == FieldOf(rs[i], f)
  {
    if i < |rs| - 1 {
      ColumnAt(rs[..|rs| - 1], f, i);
    }
  }

  /** `acc[v] = (acc[v] || 0) + 1` over all values: the reduction behind
      `difficultyStats` and `statusStats`. */
  method Tally(values: seq<string>) returns (keys: seq<string>, counts: map<string, nat>)
    ensures keys == Seqs.Dedup(values)
    ensures forall k :: k in counts <==> k in values
    ensures forall k :: k in counts ==> counts[k] == Seqs.Occurrences(values, k) && counts[k] >= 1
  {
    keys := [];
    counts := map[];
    var i := 0;
    while i < |values|
      invariant 0 <= i <= |values|
      invariant TallyAcc(values[..i], keys, counts)
    {
      var v := values[i];
      Seqs.TakeSnoc(values, i);
      var keys' := if v in counts then keys else keys + [v];
      var counts' := counts[v := (if v in counts then counts[v] else 0) + 1];
      TallyStep(values[..i], v, keys, counts, keys', counts');
      keys, counts := keys', counts';
      i := i + 1;
    }
    assert values[..i] == values;
    TallyDone(values, keys, counts);
  }

  lemma TallyDone(values: seq<string>, keys: seq<string>, counts: map<string, nat>)
    requires TallyAcc(values, keys, counts)
    ensures keys == Seqs.Dedup(values)
    ensures forall k :: k in counts <==> k in values
    ensures forall k :: k in counts ==> counts[k] == Seqs.Occurrences(values, k) && counts[k] >= 1
  {
  }

  /** The dictionary after tallying `seen`: its keys in insertion order and
      each key's count. */
  ghost predicate TallyAcc(seen: seq<string>, keys: seq<string>, counts: map<string, nat>) {
    && keys == Seqs.Dedup(seen)
    && (forall k :: k in counts <==> k in seen)
    && (forall k :: k in counts ==> counts[k] == Seqs.Occurrences(seen, k))
  }

  lemma TallyStep(seen: seq<string>, v: string, keys: seq<string>, counts: map<string, nat>,
                  keys': seq<string>, counts': map<string, nat>)
    requires TallyAcc(seen, keys, counts)
    requires keys' == if v in counts then keys else keys + [v]
    requires counts' == counts[v := (if v in counts then counts[v] else 0) + 1]
    ensures TallyAcc(seen + [v], keys', counts')
  {
    Seqs.SnocFacts(seen, v);
  }

  /** `difficultyStats` */
  method DifficultyStats(rs: seq<Roadmap>) returns (keys: seq<string>, counts: map<string, nat>)
    ensures keys == Seqs.Dedup(Column(rs, Difficulty))
    ensures forall k :: k in counts <==> exists i :: 0 <= i < |rs| && rs[i].difficulty == k
    ensures forall k :: k in counts ==> counts[k] == Seqs.Occurrences(Column(rs, Difficulty), k) >= 1
  {
    keys, counts := Tally(Column(rs, Difficulty));
    ColumnMembership(rs, Difficulty);
  }

  /** `statusStats` */
  method StatusStats(rs: seq<Roadmap>) returns (keys: seq<string>, counts: map<string, nat>)
    ensures keys == Seqs.Dedup(Column(rs, Status))
    ensures forall k :: k in counts <==> exists i :: 0 <= i < |rs| && rs[i].status == k
    ensures forall k :: k in counts ==> counts[k] == Seqs.Occurrences(Column(rs, Status), k) >= 1
  {
    keys, counts := Tally(Column(rs, Status));
    ColumnMembership(rs, Status);
  }

  lemma ColumnMembership(rs: seq<Roadmap>, f: Field)
    ensures forall k :: k in Column(rs, f) <==> exists i :: 0 <= i < |rs| && FieldOf(rs[i], f) == k
  {
    var vs := Column(rs, f);
    forall k ensures k in vs <==> exists i :: 0 <= i < |rs| && FieldOf(rs[i], f) == k {
      if k in vs {
        var i :| 0 <= i < |vs| && vs[i] == k;
        ColumnAt(rs, f, i);
      }
      if exists i :: 0 <= i < |rs| && FieldOf(rs[i], f) == k {
        var i :| 0 <= i < |rs| && FieldOf(rs[i], f) == k;
        ColumnAt(rs, f, i);
      }
    }
  }

  /** Sum over `keys` of the stored counts. */
  function SumCounts(keys: seq<string>, counts: map<string, nat>): nat
    requires forall k :: k in keys ==> k in counts
  {
    if |keys| == 0 then 0 else SumCounts(keys[..|keys| - 1], counts) + counts[keys[|keys| - 1]]
  }

  /** The group sizes of a tally add up to the number of values tallied. */
  lemma CountsSumToLength(values: seq<string>, keys: seq<string>, counts: map<string, nat>)
    requires keys == Seqs.Dedup(values)
    requires forall k :: k in counts <==> k in values
    requires forall k :: k in counts ==> counts[k] == Seqs.Occurrences(values, k)
    ensures SumCounts(keys, counts) == |values|
  {
    SumCountsIsOccurrences(keys, values, counts);
    Seqs.GroupSizesSum(values);
  }

  lemma {:induction false} SumCountsIsOccurrences(keys: seq<string>, values: seq<string>, counts: map<string, nat>)
    requires forall k :: k in keys ==> k in counts && counts[k] == Seqs.Occurrences(values, k)
    ensures SumCounts(keys, counts) == Seqs.SumOccurrences(keys, values)
  {
    if |keys| > 0 {
      SumCountsIsOccurrences(keys[..|keys| - 1], values, counts);
    }
  }

  /** An entry of `categoryProgress`. */
  datatype CategoryStat = CategoryStat(total: nat, progress: real, count: nat)

  /** Sum of `completion_percentage || 0` over the roadmaps of one category. */
  function CategoryPct(rs: seq<Roadmap>, c: string): real {
    if |rs| == 0 then 0.0
    else CategoryPct(rs[..|rs| - 1], c) + (if rs[|rs| - 1].category == c then Pct(rs[|rs| - 1]) else 0.0)
  }

  /** The entry for `n` roadmaps whose percentages sum to `p`. */
  function Entry(n: nat, p: real): CategoryStat {
    CategoryStat(100 * n, p, n)
  }

  /** The accumulator after the roadmaps `seen`: its keys in insertion
      order, one entry per category met, each entry the count, 100 per roadmap
      and the summed percentage of that category's roadmaps. */
  ghost predicate CategoryAcc(seen: seq<Roadmap>, keys: seq<string>, acc: map<string, CategoryStat>) {
    && keys == Seqs.Dedup(Column(seen, Category))
    && (forall c :: c in acc <==> c in Column(seen, Category))
    && (forall c :: c in acc ==> acc[c] == Entry(Seqs.Occurrences(Column(seen, Category), c), CategoryPct(seen, c)))
  }

  /** `categoryProgress`: per category, 100 per roadmap, the summed percentage
      and the number of roadmaps. */
  method CategoryProgress(rs: seq<Roadmap>) returns (keys: seq<string>, acc: map<string, CategoryStat>)
    ensures keys == Seqs.Dedup(Column(rs, Category))
    ensures forall c :: c in acc <==> c in Column(rs, Category)
    ensures forall c :: c in acc ==>
      && acc[c].count == Seqs.Occurrences(Column(rs, Category), c)
      && acc[c].count >= 1
      && acc[c].total == 100 * acc[c].count
      && acc[c].progress == CategoryPct(rs, c)
  {
    keys := [];
    acc := map[];
    var i := 0;
    while i < |rs|
      invariant 0 <= i <= |rs|
      invariant CategoryAcc(rs[..i], keys, acc)
    {
      Seqs.TakeSnoc(rs, i);
      var roadmap := rs[i];
      var category := roadmap.category;
      var entry := CategoryStat(0, 0.0, 0);
      var keys' := keys;
      if category in acc {
        entry := acc[category];
      } else {
        keys' := keys + [category];
      }
      var acc' := acc[category := CategoryStat(entry.total + 100, entry.progress + Pct(roadmap), entry.count + 1)];
      CategoryAccStep(rs[..i], roadmap, keys, acc, keys', acc');
      keys, acc := keys', acc';
      i := i + 1;
    }
    assert rs[..i] == rs;
    CategoryDone(rs, keys, acc);
  }

  /** One iteration of the `categoryProgress` reduce, on roadmap `r`. */
  lemma CategoryAccStep(seen: seq<Roadmap>, r: Roadmap, keys: seq<string>, acc: map<string, CategoryStat>,
                        keys': seq<string>, acc': map<string, CategoryStat>)
    requires CategoryAcc(seen, keys, acc)
    requires keys' == if r.category in acc then keys else keys + [r.category]
    requires var entry := if r.category in acc then acc[r.category] else CategoryStat(0, 0.0, 0);
      acc' == acc[r.category := CategoryStat(entry.total + 100, entry.progress + Pct(r), entry.count + 1)]
    ensures CategoryAcc(seen + [r], keys', acc')
  {
    var next := seen + [r];
    assert next[..|next| - 1] == seen;
    Seqs.SnocFacts(Column(seen, Category), r.category);
    forall c | c in acc'
      ensures acc'[c] == Entry(Seqs.Occurrences(Column(next, Category), c), CategoryPct(next, c))
    {
      EntryStepAt(seen, r, acc, acc', c);
    }
  }

  /** The entry of one category after one iteration. */
  lemma EntryStepAt(seen: seq<Roadmap>, r: Roadmap, acc: map<string, CategoryStat>, acc': map<string, CategoryStat>, c: string)
    requires c in acc <==> c in Column(seen, Category)
    requires c in acc ==> acc[c] == Entry(Seqs.Occurrences(Column(seen, Category), c), CategoryPct(seen, c))
    requires var entry := if r.category in acc then acc[r.category] else CategoryStat(0, 0.0, 0);
      acc' == acc[r.category := CategoryStat(entry.total + 100, entry.progress + Pct(r), entry.count + 1)]
    requires c in acc'
    ensures acc'[c] == Entry(Seqs.Occurrences(Column(seen + [r], Category), c), CategoryPct(seen + [r], c))
  {
    var n := Seqs.Occurrences(Column(seen, Category), c);
    var p := CategoryPct(seen, c);
    OccurrencesSnoc(seen, r, c);
    CategoryPctSnoc(seen, r, c);
    if c != r.category {
      assert acc'[c] == acc[c];
    } else if c in acc {
      assert acc'[c] == CategoryStat(100 * n + 100, p + Pct(r), n + 1);
    } else {
      CategoryPctAbsent(seen, c);
      assert acc'[c] == CategoryStat(100, Pct(r), 1);
    }
  }

  lemma OccurrencesSnoc(seen: seq<Roadmap>, r: Roadmap, c: string)
    ensures Seqs.Occurrences(Column(seen + [r], Category), c) ==
      Seqs.Occurrences(Column(seen, Category), c) + (if r.category == c then 1 else 0)
  {
    var next := seen + [r];
    assert next[..|next| - 1] == seen;
    Seqs.SnocFacts(Column(seen, Category), r.category);
  }

  lemma CategoryPctSnoc(seen: seq<Roadmap>, r: Roadmap, c: string)
    ensures CategoryPct(seen + [r], c) == CategoryPct(seen, c) + (if r.category == c then Pct(r) else 0.0)
  {
    var next := seen + [r];
    assert next[..|next| - 1] == seen;
  }

  /** The accumulator over all roadmaps is the method's result. */
  lemma CategoryDone(rs: seq<Roadmap>, keys: seq<string>, acc: map<string, CategoryStat>)
    requires CategoryAcc(rs, keys, acc)
    ensures forall c :: c in acc ==>
      && acc[c].count == Seqs.Occurrences(Column(rs, Category), c)
      && acc[c].count >= 1
      && acc[c].total == 100 * acc[c].count
      && acc[c].progress == CategoryPct(rs, c)
  {
  }

  lemma {:induction false} CategoryPctAbsent(rs: seq<Roadmap>, c: string)
    requires c !in Column(rs, Category)
    ensures CategoryPct(rs, c) == 0.0
  {
    if |rs| > 0 {
      assert Column(rs, Category) == Column(rs[..|rs| - 1], Category) + [rs[|rs| - 1].category];
      CategoryPctAbsent(rs[..|rs| - 1], c);
    }
  }

  /** `avgProgress` of a category entry. */
  function AvgProgress(stat: CategoryStat): (avg: real)
    ensures stat.count == 0 ==> avg == 0.0
    ensures stat.count > 0 ==> avg * stat.count as real == stat.progress
  {
    if stat.count > 0 then stat.progress / stat.count as real else 0.0
  }

  /** With percentages between 0 and 100, a category's summed percentage lies
      between 0 and 100 times its roadmap count, so its average is a
      percentage too. */
  lemma {:induction false} CategoryPctBounds(rs: seq<Roadmap>, c: string)
    requires PctInRange(rs)
    ensures 0.0 <= CategoryPct(rs, c) <= 100.0 * Seqs.Occurrences(Column(rs, Category), c) as real
  {
    if |rs| > 0 {
      var init := rs[..|rs| - 1];
      assert PctInRange(init) by {
        forall i | 0 <= i < |init| ensures 0.0 <= Pct(init[i]) <= 100.0 {
          assert init[i] == rs[i];
        }
      }
      CategoryPctBounds(init, c);
      assert Column(rs, Category)[..|rs| - 1] == Column(init, Category);
    }
  }

  lemma CategoryAverageBounds(rs: seq<Roadmap>, c: string, stat: CategoryStat)
    requires PctInRange(rs)
    requires stat.count == Seqs.Occurrences(Column(rs, Category), c) && stat.progress == CategoryPct(rs, c)
    ensures 0.0 <= AvgProgress(stat) <= 100.0
  {
    CategoryPctBounds(rs, c);
    if stat.count > 0 {
      QuotientBounds(stat.progress, stat.count as real);
    }
  }

  lemma QuotientBounds(p: real, n: real)
    requires n > 0.0 && 0.0 <= p <= 100.0 * n
    ensures 0.0 <= p / n <= 100.0
  {
    var q := p / n;
    assert q * n == p;
  }
  /** "No roadmaps to analyze yet" is shown when the category map has no key,
      which is exactly when there are no roadmaps. */
  lemma NoRoadmapsMessageIff(rs: seq<Roadmap>)
    ensures |Seqs.Dedup(Column(rs, Category))| == 0 <==> |rs| == 0
  {
    if |rs| > 0 {
      assert Column(rs, Category)[0] in Seqs.Dedup(Column(rs, Category));
    }
  }
}
