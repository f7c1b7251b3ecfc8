/** The template browser of the dashboard
    (components/dashboard/template-categories.tsx): templates grouped by
    category, one filter button per category with its count, and the list
    shown for the selected category. */
module TemplateCategories {
  import opened Rows
  import Seqs

  /** The category of every template, in input order. */
  function CategoriesOf(ts: seq<Template>): (cs: seq<string>)
    ensures |cs| == |ts|
  {
    if |ts| == 0 then [] else CategoriesOf(ts[..|ts| - 1]) + [ts[|ts| - 1].category]
  }

  /** The templates of one category, in input order. */
  function InCategory(ts: seq<Template>, c: string): (g: seq<Template>)
    ensures |g| <= |ts|
  {
    if |ts| == 0 then []
    else InCategory(ts[..|ts| - 1], c) + (if ts[|ts| - 1].category == c then [ts[|ts| - 1]] else [])
  }

  /** A template is in the group of a category exactly when it is one of the
      templates and has that category. */
  lemma {:induction false} InCategoryMembership(ts: seq<Template>, c: string, t: Template)
    ensures t in InCategory(ts, c) <==> t in ts && t.category == c
  {
    if |ts| > 0 {
      var init := ts[..|ts| - 1];
      InCategoryMembership(init, c, t);
      assert ts == init + [ts[|ts| - 1]];
    }
  }

  /** A group has as many templates as its category occurs. */
  lemma {:induction false} InCategorySize(ts: seq<Template>, c: string)
    ensures |InCategory(ts, c)| == Seqs.Occurrences(CategoriesOf(ts), c)
  {
    if |ts| > 0 {
      var init := ts[..|ts| - 1];
      InCategorySize(init, c);
      assert CategoriesOf(ts)[..|ts| - 1] == CategoriesOf(init);
    }
  }

  /** Grouping keeps relative order: the group of a concatenation is the
      concatenation of the groups. */
  lemma {:induction false} InCategoryConcat(a: seq<Template>, b: seq<Template>, c: string)
    ensures InCategory(a + b, c) == InCategory(a, c) + InCategory(b, c)
  {
    if |b| == 0 {
      assert a + b == a;
    } else {
      assert (a + b)[..|a + b| - 1] == a + b[..|b| - 1];
      InCategoryConcat(a, b[..|b| - 1], c);
    }
  }

  /** The dictionary after the templates `seen`: its keys in insertion
      order, one group per category met, each group the templates of that
      category so far. */
  ghost predicate GroupAcc(seen: seq<Template>, keys: seq<string>, groups: map<string, seq<Template>>) {
    && keys == Seqs.Dedup(CategoriesOf(seen))
    && (forall c :: c in groups <==> c in CategoriesOf(seen))
    && (forall c :: c in groups ==> groups[c] == InCategory(seen, c))
  }

  /** `categorizedTemplates`: the reduce that pushes each template onto the
      array of its category. Also returns `Object.keys` of the result. */
  method GroupByCategory(ts: seq<Template>) returns (keys: seq<string>, groups: map<string, seq<Template>>)
    ensures keys == Seqs.Dedup(CategoriesOf(ts))
    ensures forall c :: c in groups <==> c in CategoriesOf(ts)
    ensures forall c :: c in groups ==> groups[c] == InCategory(ts, c) && |groups[c]| >= 1
  {
    keys := [];
    groups := map[];
    var i := 0;
    while i < |ts|
      invariant 0 <= i <= |ts|
      invariant GroupAcc(ts[..i], keys, groups)
    {
      Seqs.TakeSnoc(ts, i);
      var template := ts[i];
      var category := template.category;
      var keys' := keys;
      var group: seq<Template> := [];
      if category in groups {
        group := groups[category];
      } else {
        keys' := keys + [category];
      }
      var groups' := groups[category := group + [template]];
      GroupAccStep(ts[..i], template, keys, groups, keys', groups');
      keys, groups := keys', groups';
      i := i + 1;
    }
    assert ts[..i] == ts;
    GroupDone(ts, groups);
  }

  /** One iteration of the reduce, on template `t`. */
  lemma GroupAccStep(seen: seq<Template>, t: Template, keys: seq<string>, groups: map<string, seq<Template>>,
                     keys': seq<string>, groups': map<string, seq<Template>>)
    requires GroupAcc(seen, keys, groups)
    requires keys' == if t.category in groups then keys else keys + [t.category]
    requires groups' == groups[t.category := (if t.category in groups then groups[t.category] else []) + [t]]
    ensures GroupAcc(seen + [t], keys', groups')
  {
    var next := seen + [t];
    assert next[..|next| - 1] == seen;
    Seqs.SnocFacts(CategoriesOf(seen), t.category);
    forall c | c in groups' ensures groups'[c] == InCategory(next, c) {
      GroupStepAt(seen, t, groups, groups', c);
    }
  }

  lemma GroupStepAt(seen: seq<Template>, t: Template, groups: map<string, seq<Template>>,
                    groups': map<string, seq<Template>>, c: string)
    requires c in groups <==> c in CategoriesOf(seen)
    requires c in groups ==> groups[c] == InCategory(seen, c)
    requires groups' == groups[t.category := (if t.category in groups then groups[t.category] else []) + [t]]
    requires c in groups'
    ensures groups'[c] == InCategory(seen + [t], c)
  {
    var next := seen + [t];
    assert next[..|next| - 1] == seen;
    if c == t.category && c !in groups {
      CategoriesNotIn(seen, c);
    }
  }

  /** Every group of the finished dictionary is non-empty. */
  lemma GroupDone(ts: seq<Template>, groups: map<string, seq<Template>>)
    requires forall c :: c in groups <==> c in CategoriesOf(ts)
    requires forall c :: c in groups ==> groups[c] == InCategory(ts, c)
    ensures forall c :: c in groups ==> |groups[c]| >= 1
  {
    forall c | c in groups ensures |groups[c]| >= 1 {
      InCategorySize(ts, c);
    }
  }

  /** `filteredTemplates`: a truthy selection shows its group, or nothing when
      it has none; no selection, or the empty string, shows every template. */
  function Filtered(ts: seq<Template>, groups: map<string, seq<Template>>, selected: Option<string>): seq<Template> {
    if selected.Some? && selected.value != "" then
      (if selected.value in groups then groups[selected.value] else [])
    else ts
  }

  /** With the groups of the reduce, the list shown is all templates without
      a selection and exactly the selected category's templates otherwise
      (none for a category without templates). */
  lemma FilteredSpec(ts: seq<Template>, keys: seq<string>, groups: map<string, seq<Template>>, selected: Option<string>)
    requires forall c :: c in groups <==> c in CategoriesOf(ts)
    requires forall c :: c in groups ==> groups[c] == InCategory(ts, c)
    ensures selected.None? ==> Filtered(ts, groups, selected) == ts
    ensures selected.Some? && selected.value == "" ==> Filtered(ts, groups, selected) == ts
    ensures selected.Some? && selected.value != "" ==> Filtered(ts, groups, selected) == InCategory(ts, selected.value)
    ensures selected.Some? && selected.value != "" && selected.value !in CategoriesOf(ts) ==> Filtered(ts, groups, selected) == []
  {
    if selected.Some? && selected.value != "" && selected.value !in groups {
      CategoriesNotIn(ts, selected.value);
    }
  }

  lemma CategoriesNotIn(ts: seq<Template>, c: string)
    requires c !in CategoriesOf(ts)
    ensures InCategory(ts, c) == []
  {
    InCategorySize(ts, c);
  }

  /** The badge of a category button: `categorizedTemplates[category]?.length || 0`. */
  function BadgeCount(groups: map<string, seq<Template>>, c: string): nat {
    if c in groups then |groups[c]| else 0
  }

  /** A button's count is the number of templates of its category. */
  lemma BadgeCountIsOccurrences(ts: seq<Template>, groups: map<string, seq<Template>>, c: string)
    requires forall c :: c in groups <==> c in CategoriesOf(ts)
    requires forall c :: c in groups ==> groups[c] == InCategory(ts, c)
    ensures BadgeCount(groups, c) == Seqs.Occurrences(CategoriesOf(ts), c)
  {
    InCategorySize(ts, c);
  }

  /** The counts of all category buttons add up to the number of templates. */
  lemma BadgesSumToTotal(ts: seq<Template>, keys: seq<string>, groups: map<string, seq<Template>>)
    requires keys == Seqs.Dedup(CategoriesOf(ts))
    requires forall c :: c in groups <==> c in CategoriesOf(ts)
    requires forall c :: c in groups ==> groups[c] == InCategory(ts, c)
    ensures SumBadges(keys, groups) == |ts|
  {
    SumBadgesIsOccurrences(ts, keys, groups);
    Seqs.GroupSizesSum(CategoriesOf(ts));
  }

  function SumBadges(keys: seq<string>, groups: map<string, seq<Template>>): nat {
    if |keys| == 0 then 0 else SumBadges(keys[..|keys| - 1], groups) + BadgeCount(groups, keys[|keys| - 1])
  }

  lemma {:induction false} SumBadgesIsOccurrences(ts: seq<Template>, keys: seq<string>, groups: map<string, seq<Template>>)
    requires forall c :: c in groups <==> c in CategoriesOf(ts)
    requires forall c :: c in groups ==> groups[c] == InCategory(ts, c)
    ensures SumBadges(keys, groups) == Seqs.SumOccurrences(keys, CategoriesOf(ts))
  {
    if |keys| > 0 {
      var k := keys[|keys| - 1];
      SumBadgesIsOccurrences(ts, keys[..|keys| - 1], groups);
      InCategorySize(ts, k);
    }
  }

  /** The browser's state: the templates it was given and the selected
      category (`null` for "All Categories"). */
  class TemplateBrowser {
    const templates: seq<Template>
    var selectedCategory: Option<string>

    constructor (ts: seq<Template>)
      ensures templates == ts && selectedCategory == None
    {
      templates := ts;
      selectedCategory := None;
    }

    /** A click on a category button or on "All Categories". */
    method Select(category: Option<string>)
      modifies this
      ensures selectedCategory == category
    {
      selectedCategory := category;
    }

    /** One render: the category buttons and the templates listed, with the
        "No templates found" message shown exactly when that list is empty. */
    method Render() returns (categories: seq<string>, shown: seq<Template>, noTemplatesMessage: bool)
      ensures Seqs.NoDuplicates(categories)
      ensures forall c :: c in categories <==> c in CategoriesOf(templates)
      ensures selectedCategory.None? ==> shown == templates
      ensures selectedCategory.Some? && selectedCategory.value == "" ==> shown == templates
      ensures selectedCategory.Some? && selectedCategory.value != "" ==> shown == InCategory(templates, selectedCategory.value)
      ensures noTemplatesMessage <==> |shown| == 0
    {
      var groups;
      categories, groups := GroupByCategory(templates);
      FilteredSpec(templates, categories, groups, selectedCategory);
      shown := Filtered(templates, groups, selectedCategory);
      noTemplatesMessage := |shown| == 0;
    }
  }
}
