/** Helpers shared by the tables: the not-found error predicate, epoch
    conversion, and the SCIM filter builder. */
module Utils {
  import opened Wrappers
  import opened Framework

  // ---------------------------------------------------------------------
  // Substrings (Go's `strings.Contains`)

  /** `sub` occurs in `s` starting at index `i`. */
  predicate OccursAt(s: string, sub: string, i: int) {
    0 <= i && i + |sub| <= |s| && s[i..i + |sub|] == sub
  }

  /** `strings.Contains(s, sub)`, scanning `s` from the left. */
  function Contains(s: string, sub: string): bool
    decreases |s|
  {
    if |sub| > |s| then false
    else if s[..|sub|] == sub then true
    else Contains(s[1..], sub)
  }

  lemma {:induction false} ContainsIffOccurs(s: string, sub: string)
    ensures Contains(s, sub) <==> exists i :: OccursAt(s, sub, i)
    decreases |s|
  {
    if |sub| > |s| {
      assert forall i :: !OccursAt(s, sub, i);
    } else if s[..|sub|] == sub {
      assert OccursAt(s, sub, 0);
    } else {
      ContainsIffOccurs(s[1..], sub);
      if Contains(s[1..], sub) {
        var i :| OccursAt(s[1..], sub, i);
        assert s[i + 1..i + 1 + |sub|] == s[1..][i..i + |sub|];
        assert OccursAt(s, sub, i + 1);
      } else {
        forall i | OccursAt(s, sub, i)
          ensures false
        {
          assert i != 0;
          assert s[1..][i - 1..i - 1 + |sub|] == s[i..i + |sub|];
          assert OccursAt(s[1..], sub, i - 1);
        }
      }
    }
  }

  // ---------------------------------------------------------------------
  // Not-found errors

  /** Some listed code occurs in the error message. */
  predicate NotFoundMatch(notFoundErrors: seq<string>, message: string) {
    exists k :: 0 <= k < |notFoundErrors| && Contains(message, notFoundErrors[k])
  }

  /** The predicate built by `isNotFoundError(notFoundErrors)`, applied to `err`. */
  method IsNotFoundError(notFoundErrors: seq<string>, err: Error) returns (r: bool)
    ensures r <==> NotFoundMatch(notFoundErrors, err.message)
    ensures |notFoundErrors| == 0 ==> !r
  {
    var i := 0;
    while i < |notFoundErrors|
      invariant 0 <= i <= |notFoundErrors|
      invariant forall k :: 0 <= k < i ==> !Contains(err.message, notFoundErrors[k])
    {
      if Contains(err.message, notFoundErrors[i]) {
        return true;
      }
      i := i + 1;
    }
    return false;
  }

  /** A listed code matches any message that contains it, not only an equal one. */
  lemma CodeInsideMessageMatches(notFoundErrors: seq<string>, k: nat, prefix: string, suffix: string)
    requires k < |notFoundErrors|
    ensures NotFoundMatch(notFoundErrors, prefix + notFoundErrors[k] + suffix)
  {
    var m := prefix + notFoundErrors[k] + suffix;
    assert m[|prefix|..|prefix| + |notFoundErrors[k]|] == notFoundErrors[k];
    assert OccursAt(m, notFoundErrors[k], |prefix|);
    ContainsIffOccurs(m, notFoundErrors[k]);
  }

  /** A message matches exactly when some code occurs in it. */
  lemma NotFoundIffOccurs(notFoundErrors: seq<string>, message: string)
    ensures NotFoundMatch(notFoundErrors, message) <==>
            exists k, i :: 0 <= k < |notFoundErrors| && OccursAt(message, notFoundErrors[k], i)
  {
    forall k | 0 <= k < |notFoundErrors| {
      ContainsIffOccurs(message, notFoundErrors[k]);
    }
  }

  /** Adding codes to the list never turns a match into a miss. */
  lemma NotFoundMonotone(codes: seq<string>, more: seq<string>, message: string)
    requires NotFoundMatch(codes, message)
    ensures NotFoundMatch(codes + more, message) && NotFoundMatch(more + codes, message)
  {
    var k :| 0 <= k < |codes| && Contains(message, codes[k]);
    assert (codes + more)[k] == codes[k];
    assert (more + codes)[|more| + k] == codes[k];
  }

  /** The `ShouldIgnoreError` of a get config built from `isNotFoundError`:
      a matching error becomes "no row". */
  function IgnoreNotFound<T>(notFoundErrors: seq<string>, r: GetOutcome<T>): (g: GetOutcome<T>)
    ensures r.GetFailed? && NotFoundMatch(notFoundErrors, r.err.message) ==> g == NoRow
    ensures !(r.GetFailed? && NotFoundMatch(notFoundErrors, r.err.message)) ==> g == r
  {
    if r.GetFailed? && NotFoundMatch(notFoundErrors, r.err.message) then NoRow else r
  }

  // ---------------------------------------------------------------------
  // Epoch timestamps

  /** The dynamic Go value handed to `getEpochTime`. */
  datatype GoValue = GoInt64(i64: Int64) | GoInt(i: Int64) | GoOther

  /** `getEpochTime`: milliseconds since the epoch, 0 for an unsupported type. */
  function GetEpochTime(item: GoValue): (ms: Int64)
    ensures item.GoOther? ==> ms == 0
    ensures item.GoInt64? ==> ms == item.i64
    ensures item.GoInt? ==> ms == item.i
  {
    match item
    case GoInt64(v) => v
    case GoInt(v) => v
    case GoOther => 0
  }

  /** `convertTimestamp`: the instant in whole seconds, rounded down, or nil
      for a zero (or unsupported) epoch. Formatting as RFC 3339 text is left out. */
  function ConvertTimestamp(item: GoValue): (secs: Option<int>)
    ensures secs.None? <==> GetEpochTime(item) == 0
    ensures secs.Some? ==> secs.value * 1000 <= GetEpochTime(item) < secs.value * 1000 + 1000
  {
    var ms := GetEpochTime(item);
    if ms != 0 then Some(ms / 1000) else None
  }

  /** Milliseconds built from a second count and a sub-second part convert
      back to that second count, also before 1970. */
  lemma ConvertTimestampRecoversSeconds(secs: int, frac: int)
    requires 0 <= frac < 1000
    requires secs * 1000 + frac != 0
    requires -0x8000_0000_0000_0000 <= secs * 1000 + frac < 0x8000_0000_0000_0000
    ensures ConvertTimestamp(GoInt64(secs * 1000 + frac)) == Some(secs)
  {
    var s := ConvertTimestamp(GoInt64(secs * 1000 + frac)).value;
    assert s * 1000 <= secs * 1000 + frac < s * 1000 + 1000;
  }

  // ---------------------------------------------------------------------
  // SCIM filters

  /** A key column, the SCIM attribute it filters on, and its type. */
  datatype FilterQualMap = FilterQualMap(columnName: string, propertyPath: string, columnType: string)

  /** `GcpFilterOperatorMap`: SQL operators to SCIM comparison operators
      (`=` to `eq`, `<>` and `!=` to `ne`); "" for any other operator. */
  function FilterOperator(op: string): string {
    if op == "=" then " eq " else if op == "<>" || op == "!=" then " ne " else ""
  }

  /** The clause (at most one) that one qual contributes for one mapping. */
  function QualClause(item: FilterQualMap, q: Qual): seq<string> {
    if q.value.Some? && item.columnType == "string" && (q.operator == "=" || q.operator == "<>")
    then [item.propertyPath + FilterOperator(q.operator) + GetStringValue(q.value)]
    else []
  }

  function QualClauses(item: FilterQualMap, qs: seq<Qual>): seq<string>
    decreases |qs|
  {
    if |qs| == 0 then [] else QualClauses(item, qs[..|qs| - 1]) + QualClause(item, qs[|qs| - 1])
  }

  /** The clauses one mapping contributes, reading the quals of its column. */
  function ItemClauses(item: FilterQualMap, quals: map<string, KeyColumnQuals>): seq<string> {
    if item.columnName !in quals then []
    else
      var kq := quals[item.columnName];
      if kq.name != item.columnName || kq.quals.None? then [] else QualClauses(item, kq.quals.value)
  }

  function Clauses(items: seq<FilterQualMap>, quals: map<string, KeyColumnQuals>): seq<string>
    decreases |items|
  {
    if |items| == 0 then [] else Clauses(items[..|items| - 1], quals) + ItemClauses(items[|items| - 1], quals)
  }

  /** Clauses joined with " and ", none before the first or after the last. */
  function Join(clauses: seq<string>): string
    decreases |clauses|
  {
    if |clauses| == 0 then ""
    else if |clauses| == 1 then clauses[0]
    else Join(clauses[..|clauses| - 1]) + " and " + clauses[|clauses| - 1]
  }

  /** The filter `buildQueryFilterFromQuals` builds: every applicable clause, in
      mapping order and, within a column, in qual order, joined with " and ". */
  function QueryFilter(items: seq<FilterQualMap>, quals: map<string, KeyColumnQuals>): string {
    Join(Clauses(items, quals))
  }

  /** Qual `q` of mapping `item`'s column yields a clause. */
  predicate Applicable(item: FilterQualMap, quals: map<string, KeyColumnQuals>, q: Qual) {
    item.columnName in quals
    && quals[item.columnName].name == item.columnName
    && quals[item.columnName].quals.Some?
    && q in quals[item.columnName].quals.value
    && QualClause(item, q) != []
  }

  lemma JoinSnoc(xs: seq<string>, c: string)
    ensures Join(xs + [c]) == if xs == [] then c else Join(xs) + " and " + c
  {
    assert (xs + [c])[..|xs|] == xs;
  }

  lemma {:induction false} JoinEmptyIff(xs: seq<string>)
    requires forall k :: 0 <= k < |xs| ==> xs[k] != ""
    ensures Join(xs) == "" <==> xs == []
    decreases |xs|
  {
    if |xs| > 1 {
      JoinEmptyIff(xs[..|xs| - 1]);
    }
  }

  lemma {:induction false} QualClausesNonEmpty(item: FilterQualMap, qs: seq<Qual>)
    ensures forall k :: 0 <= k < |QualClauses(item, qs)| ==> QualClauses(item, qs)[k] != ""
    decreases |qs|
  {
    if |qs| > 0 {
      QualClausesNonEmpty(item, qs[..|qs| - 1]);
      var c := QualClause(item, qs[|qs| - 1]);
      if c != [] {
        assert |c[0]| >= |FilterOperator(qs[|qs| - 1].operator)| > 0;
      }
    }
  }

  lemma {:induction false} ClausesNonEmpty(items: seq<FilterQualMap>, quals: map<string, KeyColumnQuals>)
    ensures forall k :: 0 <= k < |Clauses(items, quals)| ==> Clauses(items, quals)[k] != ""
    decreases |items|
  {
    if |items| > 0 {
      ClausesNonEmpty(items[..|items| - 1], quals);
      var item := items[|items| - 1];
      if item.columnName in quals && quals[item.columnName].quals.Some? {
        QualClausesNonEmpty(item, quals[item.columnName].quals.value);
      }
    }
  }

  lemma AppendAssoc<T>(a: seq<T>, b: seq<T>, c: seq<T>)
    ensures a + (b + c) == (a + b) + c
  {
  }

  lemma QualClausesSnoc(item: FilterQualMap, qs: seq<Qual>, j: nat)
    requires j < |qs|
    ensures QualClauses(item, qs[..j + 1]) == QualClauses(item, qs[..j]) + QualClause(item, qs[j])
  {
    assert qs[..j + 1][..j] == qs[..j];
  }

  /** Appending a clause to a non-empty filter puts " and " in front of it. */
  lemma JoinStep(acc: seq<string>, c: string)
    requires forall k :: 0 <= k < |acc| ==> acc[k] != ""
    ensures Join(acc + [c]) == (if Join(acc) != "" then Join(acc) + " and " else "") + c
  {
    JoinEmptyIff(acc);
    JoinSnoc(acc, c);
  }

  /** One step of the inner loop: appending the clause of qual `qs[j]`. */
  lemma QualStep(before: seq<string>, item: FilterQualMap, qs: seq<Qual>, j: nat)
    requires j < |qs|
    requires forall k :: 0 <= k < |before| ==> before[k] != ""
    ensures var f := Join(before + QualClauses(item, qs[..j]));
            var c := QualClause(item, qs[j]);
            Join(before + QualClauses(item, qs[..j + 1]))
            == if c == [] then f else (if f != "" then f + " and " else "") + c[0]
  {
    QualClausesSnoc(item, qs, j);
    var acc := before + QualClauses(item, qs[..j]);
    var c := QualClause(item, qs[j]);
    AppendAssoc(before, QualClauses(item, qs[..j]), c);
    if c != [] {
      QualClausesNonEmpty(item, qs[..j]);
      assert forall k :: 0 <= k < |acc| ==> acc[k] != "";
      JoinStep(acc, c[0]);
      assert c == [c[0]];
    } else {
      assert acc + c == acc;
    }
  }

  /** One step of the outer loop: the clauses of mapping `items[i]`. */
  lemma ItemStep(items: seq<FilterQualMap>, i: nat, quals: map<string, KeyColumnQuals>)
    requires i < |items|
    ensures Clauses(items[..i + 1], quals) == Clauses(items[..i], quals) + ItemClauses(items[i], quals)
    ensures forall k :: 0 <= k < |Clauses(items[..i], quals)| ==> Clauses(items[..i], quals)[k] != ""
  {
    assert items[..i + 1][..i] == items[..i];
    ClausesNonEmpty(items[..i], quals);
  }

  /** `buildQueryFilterFromQuals`: the SCIM filter for the quals of the
      mapped columns. */
  method BuildQueryFilterFromQuals(filterQuals: seq<FilterQualMap>, equalQuals: map<string, KeyColumnQuals>)
    returns (filters: string)
    ensures filters == QueryFilter(filterQuals, equalQuals)
  {
    filters := "";
    var i := 0;
    while i < |filterQuals|
      invariant 0 <= i <= |filterQuals|
      invariant filters == Join(Clauses(filterQuals[..i], equalQuals))
    {
      var item := filterQuals[i];
      ghost var before := Clauses(filterQuals[..i], equalQuals);
      ItemStep(filterQuals, i, equalQuals);
      if item.columnName in equalQuals {
        var filterQual := equalQuals[item.columnName];
        if filterQual.name == item.columnName && filterQual.quals.Some? {
          var qs := filterQual.quals.value;
          var j := 0;
          assert before + QualClauses(item, qs[..0]) == before by {
            assert qs[..0] == [];
          }
          while j < |qs|
            invariant 0 <= j <= |qs|
            invariant filters == Join(before + QualClauses(item, qs[..j]))
          {
            var qual := qs[j];
            QualStep(before, item, qs, j);
            if qual.value.Some? && item.columnType == "string" && (qual.operator == "=" || qual.operator == "<>") {
              var clause := item.propertyPath + FilterOperator(qual.operator) + GetStringValue(qual.value);
              if filters != "" {
                filters := filters + " and ";
              }
              filters := filters + clause;
            }
            j := j + 1;
          }
          assert qs[..j] == qs;
        } else {
          assert before + [] == before;
        }
      } else {
        assert before + [] == before;
      }
      i := i + 1;
    }
    assert filterQuals[..i] == filterQuals;
  }

  lemma {:induction false} QualClausesEmptyIff(item: FilterQualMap, qs: seq<Qual>)
    ensures QualClauses(item, qs) == [] <==> forall q :: q in qs ==> QualClause(item, q) == []
    decreases |qs|
  {
    if |qs| > 0 {
      QualClausesEmptyIff(item, qs[..|qs| - 1]);
      assert qs == qs[..|qs| - 1] + [qs[|qs| - 1]];
    }
  }

  lemma ItemClausesEmptyIff(item: FilterQualMap, quals: map<string, KeyColumnQuals>)
    ensures ItemClauses(item, quals) == [] <==> forall q :: !Applicable(item, quals, q)
  {
    if item.columnName in quals && quals[item.columnName].name == item.columnName
       && quals[item.columnName].quals.Some? {
      var qs := quals[item.columnName].quals.value;
      QualClausesEmptyIff(item, qs);
      if ItemClauses(item, quals) != [] {
        var q :| q in qs && QualClause(item, q) != [];
        assert Applicable(item, quals, q);
      }
    }
  }

  lemma {:induction false} ClausesEmptyIff(items: seq<FilterQualMap>, quals: map<string, KeyColumnQuals>)
    ensures |Clauses(items, quals)| == 0 <==> forall k :: 0 <= k < |items| ==> |ItemClauses(items[k], quals)| == 0
    decreases |items|
  {
    if |items| > 0 {
      var init := items[..|items| - 1];
      ClausesEmptyIff(init, quals);
      assert |Clauses(items, quals)| == |Clauses(init, quals)| + |ItemClauses(items[|items| - 1], quals)|;
      assert forall k :: 0 <= k < |init| ==> items[k] == init[k];
    }
  }

  /** The filter is empty exactly when no qual of a mapped column has a value,
      a string column type and the operator `=` or `<>`. */
  lemma FilterEmptyIff(items: seq<FilterQualMap>, quals: map<string, KeyColumnQuals>)
    ensures QueryFilter(items, quals) == "" <==> forall k, q :: 0 <= k < |items| ==> !Applicable(items[k], quals, q)
  {
    ClausesNonEmpty(items, quals);
    JoinEmptyIff(Clauses(items, quals));
    ClausesEmptyIff(items, quals);
    forall k | 0 <= k < |items| {
      ItemClausesEmptyIff(items[k], quals);
    }
  }

  /** Quals with any other operator (`!=` included) never reach the filter. */
  lemma OtherOperatorsIgnored(items: seq<FilterQualMap>, quals: map<string, KeyColumnQuals>)
    requires forall c, q :: c in quals && quals[c].quals.Some? && q in quals[c].quals.value
               ==> q.operator != "=" && q.operator != "<>"
    ensures QueryFilter(items, quals) == ""
  {
    FilterEmptyIff(items, quals);
  }

  /** A mapping whose column type is not "string" contributes nothing. */
  lemma {:induction false} NonStringMappingIgnored(item: FilterQualMap, qs: seq<Qual>)
    requires item.columnType != "string"
    ensures QualClauses(item, qs) == []
    decreases |qs|
  {
    if |qs| > 0 {
      NonStringMappingIgnored(item, qs[..|qs| - 1]);
    }
  }

  /** Clauses follow the order of the mappings. */
  lemma {:induction false} ClausesAppend(a: seq<FilterQualMap>, b: seq<FilterQualMap>, quals: map<string, KeyColumnQuals>)
    ensures Clauses(a + b, quals) == Clauses(a, quals) + Clauses(b, quals)
    decreases |b|
  {
    if |b| == 0 {
      assert a + b == a;
    } else {
      var b' := b[..|b| - 1];
      var last := b[|b| - 1];
      assert (a + b)[..|a + b| - 1] == a + b';
      assert (a + b)[|a + b| - 1] == last;
      ClausesAppend(a, b', quals);
      AppendAssoc(Clauses(a, quals), Clauses(b', quals), ItemClauses(last, quals));
    }
  }

  lemma ClausesSingleton(m: FilterQualMap, quals: map<string, KeyColumnQuals>)
    ensures Clauses([m], quals) == ItemClauses(m, quals)
  {
    assert [m][..0] == [];
  }

  /** One `=` qual on a string column: `<path> eq <value>`. */
  lemma SingleEqualityFilter(m: FilterQualMap, v: string)
    requires m.columnType == "string"
    ensures QueryFilter([m], map[m.columnName := KeyColumnQuals(m.columnName, Some([Qual("=", Some(StringValue(v)))]))])
            == m.propertyPath + " eq " + v
  {
    var q := Qual("=", Some(StringValue(v)));
    var quals := map[m.columnName := KeyColumnQuals(m.columnName, Some([q]))];
    assert [q][..0] == [];
    assert QualClauses(m, [q]) == [m.propertyPath + " eq " + v];
    ClausesSingleton(m, quals);
  }

  /** Two quals on one column are both kept, even when they contradict each other. */
  lemma ContradictingQualsBothKept(m: FilterQualMap, v: string)
    requires m.columnType == "string"
    ensures QueryFilter([m], map[m.columnName := KeyColumnQuals(m.columnName,
              Some([Qual("=", Some(StringValue(v))), Qual("<>", Some(StringValue(v)))]))])
            == (m.propertyPath + " eq " + v) + " and " + (m.propertyPath + " ne " + v)
  {
    var eq := Qual("=", Some(StringValue(v)));
    var ne := Qual("<>", Some(StringValue(v)));
    var qs := [eq, ne];
    var quals := map[m.columnName := KeyColumnQuals(m.columnName, Some(qs))];
    assert qs[..1] == [eq];
    assert [eq][..0] == [];
    assert QualClauses(m, [eq]) == [m.propertyPath + " eq " + v];
    var cs := [m.propertyPath + " eq " + v, m.propertyPath + " ne " + v];
    assert QualClauses(m, qs) == cs;
    ClausesSingleton(m, quals);
    assert cs[..1] == [cs[0]];
    assert Join(cs[..1]) == cs[0];
  }
}
