/** The secretary's student list: a filter by search and class, and the
    distinct classes offered by the class selector. */
module Students {
  import opened Wrappers
  import opened Types
  import Seqs
  import Text

  /** JavaScript truthiness of a `string | null`. */
  predicate Truthy(s: Option<string>) {
    s.Some? && s.value != ""
  }

  /** The term occurs in the lower-cased name or in the lower-cased
      enrollment id; a student without an id can match by name only. */
  predicate MatchesSearch(term: string, s: User) {
    var t := Text.ToLower(term);
    Text.Contains(Text.ToLower(s.name), t) ||
    (s.enrollmentId.Some? && Text.Contains(Text.ToLower(s.enrollmentId.value), t))
  }

  /** No class chosen keeps everyone; a chosen class keeps its students. */
  predicate MatchesClass(selected: Option<string>, s: User) {
    !Truthy(selected) || s.className == selected
  }

  function Keep(term: string, selected: Option<string>): User -> bool {
    (s: User) => MatchesSearch(term, s) && MatchesClass(selected, s)
  }

  /** `filteredStudents`: an order-preserving selection of the data. */
  function Filtered(data: Option<seq<User>>, term: string, selected: Option<string>): (r: Option<seq<User>>)
    ensures r.None? <==> data.None?
    ensures r.Some? ==> Seqs.IsSubsequence(r.value, data.value)
    ensures r.Some? ==>
              forall i :: 0 <= i < |r.value| ==> MatchesSearch(term, r.value[i]) && MatchesClass(selected, r.value[i])
    ensures r.Some? ==>
              forall i :: 0 <= i < |data.value| && Keep(term, selected)(data.value[i]) ==> data.value[i] in r.value
  {
    if data.None? then None
    else
      Seqs.FilterIsSubsequence(data.value, Keep(term, selected));
      Some(Seqs.Filter(data.value, Keep(term, selected)))
  }

  /** A student without an enrollment id is found only through the name. */
  lemma NoIdMatchesByName(term: string, s: User)
    requires s.enrollmentId.None?
    ensures MatchesSearch(term, s) <==> Text.Contains(Text.ToLower(s.name), Text.ToLower(term))
  {
  }

  /** The selector's `onChange`: the empty option clears the filter. */
  function ChooseClass(value: string): (r: Option<string>)
    ensures r.None? <==> value == ""
    ensures r.Some? ==> r.value == value && Truthy(r)
  {
    if value == "" then None else Some(value)
  }

  /** `a` occurs in `s` before any occurrence of `b`. */
  predicate FirstBefore(s: seq<Option<string>>, a: Option<string>, b: Option<string>) {
    exists k :: 0 <= k < |s| && s[k] == a && b !in s[..k]
  }

  /** `Array.from(new Set(s))`: each value once, in order of first
      occurrence. */
  function Distinct(s: seq<Option<string>>): (r: seq<Option<string>>)
    ensures forall x :: x in r <==> x in s
    ensures forall i, j :: 0 <= i < j < |r| ==> r[i] != r[j]
    ensures forall i, j :: 0 <= i < j < |r| ==> FirstBefore(s, r[i], r[j])
  {
    if s == [] then []
    else
      var init := s[..|s| - 1];
      var x := s[|s| - 1];
      var rest := Distinct(init);
      assert s == init + [x];
      FirstBeforeExtends(init, x, rest);
      if x in rest then rest
      else
        assert forall i :: 0 <= i < |rest| ==> FirstBefore(s, rest[i], x) by {
          forall i | 0 <= i < |rest|
            ensures FirstBefore(s, rest[i], x)
          {
            assert rest[i] in init;
            var k :| 0 <= k < |init| && init[k] == rest[i];
            assert s[..k] == init[..k];
            assert x !in init;
          }
        }
        rest + [x]
  }

  /** Orders of first occurrence inside a prefix survive extending it. */
  lemma FirstBeforeExtends(init: seq<Option<string>>, x: Option<string>, rest: seq<Option<string>>)
    requires forall i, j :: 0 <= i < j < |rest| ==> FirstBefore(init, rest[i], rest[j])
    ensures forall i, j :: 0 <= i < j < |rest| ==> FirstBefore(init + [x], rest[i], rest[j])
  {
    forall i, j | 0 <= i < j < |rest|
      ensures FirstBefore(init + [x], rest[i], rest[j])
    {
      var k :| 0 <= k < |init| && init[k] == rest[i] && rest[j] !in init[..k];
      assert (init + [x])[..k] == init[..k];
      assert (init + [x])[k] == init[k];
    }
  }

  /** The class name of every student, in list order. */
  function ClassNames(s: seq<User>): (names: seq<Option<string>>)
    ensures |names| == |s|
    ensures forall i :: 0 <= i < |s| ==> names[i] == s[i].className
  {
    seq(|s|, i requires 0 <= i < |s| => s[i].className)
  }

  /** The selector's classes: none without data. */
  function Classes(data: Option<seq<User>>): (r: seq<Option<string>>)
    ensures data.None? ==> r == []
    ensures data.Some? ==>
              forall c :: c in r <==> exists i :: 0 <= i < |data.value| && data.value[i].className == c
    ensures forall i, j :: 0 <= i < j < |r| ==> r[i] != r[j]
    ensures data.Some? ==>
              forall i, j :: 0 <= i < j < |r| ==> FirstBefore(ClassNames(data.value), r[i], r[j])
  {
    if data.None? then []
    else
      var s := data.value;
      var names := ClassNames(s);
      var r := Distinct(names);
      forall c
        ensures c in names <==> exists i :: 0 <= i < |s| && s[i].className == c
      {
        if c in names {
          var i :| 0 <= i < |names| && names[i] == c;
          assert s[i].className == c;
        }
        if exists i :: 0 <= i < |s| && s[i].className == c {
          var i :| 0 <= i < |s| && s[i].className == c;
          assert names[i] == c;
        }
      }
      r
  }
}
