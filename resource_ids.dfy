/** Resource ids and the extraction of the resource-group segment.
    An id such as `/subscriptions/S/resourceGroups/G/providers/...` splits on
    '/' into `["", "subscriptions", "S", "resourceGroups", "G", ...]`, and the
    group is the segment at index 4. */
module ResourceIds {
  import opened Wrappers
  import opened BatchModels

  const Separator: char := '/'

  /** `String.Split('/')`: every separator ends a segment, empty segments are
      kept, and the result is never empty. */
  function Split(s: string): (parts: seq<string>)
    ensures |parts| >= 1
    ensures forall i :: 0 <= i < |parts| ==> Separator !in parts[i]
    decreases |s|
  {
    if s == [] then [[]]
    else
      var rest := Split(s[1..]);
      if s[0] == Separator then [[]] + rest
      else [[s[0]] + rest[0]] + rest[1..]
  }

  /** `String.Join("/", parts)`: the inverse of `Split`. */
  function Join(parts: seq<string>): string
    requires |parts| >= 1
    decreases |parts|
  {
    if |parts| == 1 then parts[0]
    else parts[0] + [Separator] + Join(parts[1..])
  }

  /** Number of times `c` occurs in `s`. */
  function Count(s: string, c: char): nat
    decreases |s|
  {
    if s == [] then 0 else (if s[0] == c then 1 else 0) + Count(s[1..], c)
  }

  lemma {:induction false} SplitWithoutSeparator(s: string)
    requires Separator !in s
    ensures Split(s) == [s]
    decreases |s|
  {
    if s != [] {
      SplitWithoutSeparator(s[1..]);
      assert [s[0]] + s[1..] == s;
    }
  }

  /** Splitting at a separator splits the two sides independently. */
  lemma {:induction false} SplitAppend(a: string, b: string)
    ensures Split(a + [Separator] + b) == Split(a) + Split(b)
    decreases |a|
  {
    var s := a + [Separator] + b;
    if a == [] {
      assert s[1..] == b;
    } else {
      assert s[1..] == a[1..] + [Separator] + b;
      SplitAppend(a[1..], b);
    }
  }

  /** An id has one more segment than it has separators. */
  lemma {:induction false} SplitLength(s: string)
    ensures |Split(s)| == Count(s, Separator) + 1
    decreases |s|
  {
    if s != [] {
      SplitLength(s[1..]);
    }
  }

  lemma {:induction false} JoinCons(c: char, parts: seq<string>)
    requires |parts| >= 1
    ensures Join([[c] + parts[0]] + parts[1..]) == [c] + Join(parts)
  {
    var q := [[c] + parts[0]] + parts[1..];
    assert q[1..] == parts[1..];
  }

  /** Joining the segments of a string gives back the string. */
  lemma {:induction false} JoinSplit(s: string)
    ensures Join(Split(s)) == s
    decreases |s|
  {
    if s != [] {
      var rest := Split(s[1..]);
      JoinSplit(s[1..]);
      if s[0] == Separator {
        assert ([[]] + rest)[1..] == rest;
      } else {
        JoinCons(s[0], rest);
      }
      assert [s[0]] + s[1..] == s;
    }
  }

  /** Splitting a join of separator-free segments gives back the segments. */
  lemma {:induction false} SplitJoin(parts: seq<string>)
    requires |parts| >= 1
    requires forall i :: 0 <= i < |parts| ==> Separator !in parts[i]
    ensures Split(Join(parts)) == parts
    decreases |parts|
  {
    SplitWithoutSeparator(parts[0]);
    if |parts| > 1 {
      SplitJoin(parts[1..]);
      SplitAppend(parts[0], Join(parts[1..]));
      assert [parts[0]] + parts[1..] == parts;
    }
  }

  /** The id has a segment at index 4, the resource-group name. */
  predicate HasGroupSegment(id: string) {
    |Split(id)| >= 5
  }

  /** `ExtractResourceGroupName` exactly as written: the guard rejects fewer
      than four segments, then index 4 is read, which fails as an
      out-of-range array read when there are exactly four. */
  function ExtractResourceGroupNameAsWritten(id: string): (r: Result<string, BatchError>)
    ensures |Split(id)| < 4 ==> r == Err(MissingResGroupName(id))
    ensures |Split(id)| == 4 ==> r == Err(IndexOutOfRange)
    ensures HasGroupSegment(id) ==> r == Ok(Split(id)[4])
  {
    var idParts := Split(id);
    if |idParts| < 4 then Err(MissingResGroupName(id))
    else if 4 < |idParts| then Ok(idParts[4])
    else Err(IndexOutOfRange)
  }

  /** `ExtractResourceGroupName` with the guard it evidently intends: an id
      yields a group exactly when it has a segment at index 4, and otherwise
      the missing-group error names the id. */
  function ExtractResourceGroupName(id: string): (r: Result<string, BatchError>)
    ensures r.Ok? <==> HasGroupSegment(id)
    ensures r.Ok? ==> r.value == Split(id)[4]
    ensures r.Err? ==> r.error == MissingResGroupName(id)
  {
    var idParts := Split(id);
    if |idParts| < 5 then Err(MissingResGroupName(id))
    else Ok(idParts[4])
  }

  /** Four separator-free segments joined by '/' split back into them. */
  lemma SplitFour(a: string, b: string, c: string, d: string)
    requires Separator !in a && Separator !in b && Separator !in c && Separator !in d
    ensures Split(a + [Separator] + b + [Separator] + c + [Separator] + d) == [a, b, c, d]
  {
    SplitWithoutSeparator(a);
    SplitWithoutSeparator(b);
    SplitWithoutSeparator(c);
    SplitWithoutSeparator(d);
    SplitAppend(a + [Separator] + b + [Separator] + c, d);
    SplitAppend(a + [Separator] + b, c);
    SplitAppend(a, b);
  }

  /** The written guard lets an id with exactly four segments through, such as
      `/subscriptions/S/resourceGroups`, and reading index 4 of it then fails as
      an out-of-range access instead of the missing-group error. */
  lemma AsWrittenGuardMissesFourSegments(subscription: string)
    requires Separator !in subscription
    ensures ExtractResourceGroupNameAsWritten("/subscriptions/" + subscription + "/resourceGroups")
         == Err(IndexOutOfRange)
    ensures ExtractResourceGroupName("/subscriptions/" + subscription + "/resourceGroups")
         == Err(MissingResGroupName("/subscriptions/" + subscription + "/resourceGroups"))
  {
    SplitFour([], "subscriptions", subscription, "resourceGroups");
    ArmFourSegmentLayout(subscription);
  }

  lemma ArmFourSegmentLayout(subscription: string)
    ensures "/subscriptions/" + subscription + "/resourceGroups"
         == [] + [Separator] + "subscriptions" + [Separator] + subscription + [Separator] + "resourceGroups"
  {
  }

  /** The two versions differ on four-segment ids only. */
  lemma AsWrittenAgreesElsewhere(id: string)
    requires |Split(id)| != 4
    ensures ExtractResourceGroupNameAsWritten(id) == ExtractResourceGroupName(id)
  {
  }

  /** On a resource-manager id the extracted group is the segment after
      `resourceGroups`. */
  lemma ExtractFromArmId(subscription: string, group: string, rest: string)
    requires Separator !in subscription && Separator !in group
    ensures ExtractResourceGroupName("/subscriptions/" + subscription + "/resourceGroups/" + group + "/" + rest)
         == Ok(group)
  {
    var prefix := [] + [Separator] + "subscriptions" + [Separator] + subscription + [Separator] + "resourceGroups";
    SplitFour([], "subscriptions", subscription, "resourceGroups");
    SplitAppend(prefix, group + [Separator] + rest);
    SplitAppend(group, rest);
    SplitWithoutSeparator(group);
    ArmIdLayout(subscription, group, rest);
  }

  lemma ArmIdLayout(subscription: string, group: string, rest: string)
    ensures "/subscriptions/" + subscription + "/resourceGroups/" + group + "/" + rest
         == ([] + [Separator] + "subscriptions" + [Separator] + subscription + [Separator] + "resourceGroups")
            + [Separator] + (group + [Separator] + rest)
  {
  }
}
