/**
 Agent-image tags: the date-time tags and their order, the newest one, the default for new
 agents, the upgrade flag, and the list a chooser offers.
 */
module ImageTags {

  type Tag = string

  // ---------------------------------------------------------------- the lexical order

  /** Byte-wise string order. */
  predicate Less(a: Tag, b: Tag) {
    b != [] && (a == [] || a[0] < b[0] || (a[0] == b[0] && Less(a[1..], b[1..])))
  }

  lemma {:induction false} LessTotal(a: Tag, b: Tag)
    ensures !(Less(a, b) && Less(b, a)) && (a == b <==> !Less(a, b) && !Less(b, a))
  {
    if a != [] && b != [] {
      LessTotal(a[1..], b[1..]);
      if a[0] == b[0] && a[1..] == b[1..] {
        assert a == [a[0]] + a[1..] && b == [b[0]] + b[1..];
      }
    }
  }

  lemma {:induction false} LessTransitive(a: Tag, b: Tag, c: Tag)
    requires Less(a, b) && Less(b, c)
    ensures Less(a, c)
  {
    if a != [] && a[0] == b[0] && b[0] == c[0] {
      LessTransitive(a[1..], b[1..], c[1..]);
    }
  }

  // ---------------------------------------------------------------- date-time tags

  predicate Digits(s: string) {
    forall i | 0 <= i < |s| :: '0' <= s[i] <= '9'
  }

  /** YYYYMMDD-HHMMSS. */
  predicate IsDateTimeTag(t: Tag) {
    |t| == 15 && Digits(t[..8]) && t[8] == '-' && Digits(t[9..])
  }

  function Pow10(n: nat): nat { if n == 0 then 1 else 10 * Pow10(n - 1) }

  function Digit(c: char): nat
    requires '0' <= c <= '9'
  {
    c as int - '0' as int
  }

  function Number(s: string): int
    requires Digits(s)
  {
    if s == [] then 0 else Digit(s[0]) * Pow10(|s| - 1) + Number(s[1..])
  }

  /** The date and the time as one number. */
  function Moment(t: Tag): int
    requires IsDateTimeTag(t)
  {
    Number(t[..8]) * Pow10(6) + Number(t[9..])
  }

  lemma LeadingDigit(d: nat, e: nat, p: nat, x: nat, y: nat)
    requires d < e && x < p
    ensures d * p + x < e * p + y
  {
    assert e * p >= (d + 1) * p == d * p + p;
  }

  lemma {:induction false} NumberBound(s: string)
    requires Digits(s)
    ensures 0 <= Number(s) < Pow10(|s|)
  {
    if s != [] {
      NumberBound(s[1..]);
      LeadingDigit(Digit(s[0]), 10, Pow10(|s| - 1), Number(s[1..]), 0);
    }
  }

  lemma {:induction false} DigitsOrder(a: string, b: string)
    requires Digits(a) && Digits(b) && |a| == |b|
    ensures Less(a, b) <==> Number(a) < Number(b)
  {
    if a != [] {
      DigitsOrder(a[1..], b[1..]);
      NumberBound(a[1..]);
      NumberBound(b[1..]);
      var d, e, p := Digit(a[0]), Digit(b[0]), Pow10(|a| - 1);
      if d < e {
        LeadingDigit(d, e, p, Number(a[1..]), Number(b[1..]));
      } else if e < d {
        LeadingDigit(e, d, p, Number(b[1..]), Number(a[1..]));
      }
    }
  }

  /** Comparing strings of one length part by part. */
  lemma {:induction false} LessByParts(x: string, y: string, u: string, v: string)
    requires |x| == |u|
    ensures Less(x + y, u + v) <==> Less(x, u) || (x == u && Less(y, v))
  {
    if x == [] {
      assert x + y == y && u + v == v;
    } else {
      assert (x + y)[1..] == x[1..] + y && (u + v)[1..] == u[1..] + v;
      LessByParts(x[1..], y, u[1..], v);
      assert x == u <==> x[0] == u[0] && x[1..] == u[1..] by {
        assert x == [x[0]] + x[1..] && u == [u[0]] + u[1..];
      }
    }
  }

  lemma EqualNumbers(a: string, b: string)
    requires Digits(a) && Digits(b) && |a| == |b| && Number(a) == Number(b)
    ensures a == b
  {
    DigitsOrder(a, b);
    DigitsOrder(b, a);
    LessTotal(a, b);
  }

  /** Lexical order of date-time tags is chronological order. */
  lemma LexicalIsChronological(a: Tag, b: Tag)
    requires IsDateTimeTag(a) && IsDateTimeTag(b)
    ensures Less(a, b) <==> Moment(a) < Moment(b)
  {
    var x, y, u, v := a[..8], a[9..], b[..8], b[9..];
    assert a == x + ("-" + y) && b == u + ("-" + v);
    LessByParts(x, "-" + y, u, "-" + v);
    LessByParts("-", y, "-", v);
    DigitsOrder(x, u);
    DigitsOrder(y, v);
    NumberBound(x);
    NumberBound(y);
    NumberBound(u);
    NumberBound(v);
    if Number(x) < Number(u) {
      LeadingDigit(Number(x), Number(u), Pow10(6), Number(y), Number(v));
    } else if Number(u) < Number(x) {
      LeadingDigit(Number(u), Number(x), Pow10(6), Number(v), Number(y));
    } else {
      EqualNumbers(x, u);
    }
  }

  // ---------------------------------------------------------------- sorting, filtering, the newest

  predicate Descending(s: seq<Tag>) {
    forall i, j | 0 <= i < j < |s| :: !Less(s[i], s[j])
  }

  function Insert(t: Tag, s: seq<Tag>): seq<Tag> {
    if s == [] || !Less(t, s[0]) then [t] + s else [s[0]] + Insert(t, s[1..])
  }

  /** A sorted copy, greatest first. */
  function SortTagsNewestFirst(s: seq<Tag>): seq<Tag> {
    if s == [] then [] else Insert(s[0], SortTagsNewestFirst(s[1..]))
  }

  lemma NotLessTransitive(a: Tag, b: Tag, c: Tag)
    requires !Less(a, b) && !Less(b, c)
    ensures !Less(a, c)
  {
    LessTotal(a, b);
    LessTotal(b, c);
    if Less(b, a) && Less(c, b) {
      LessTransitive(c, b, a);
    }
    LessTotal(a, c);
  }

  lemma {:induction false} InsertSorts(t: Tag, s: seq<Tag>)
    requires Descending(s)
    ensures Descending(Insert(t, s)) && multiset(Insert(t, s)) == multiset{t} + multiset(s)
  {
    if s == [] || !Less(t, s[0]) {
      forall j | 0 <= j < |s| ensures !Less(t, s[j]) {
        if j > 0 { NotLessTransitive(t, s[0], s[j]); }
      }
    } else {
      assert s == [s[0]] + s[1..];
      InsertSorts(t, s[1..]);
      var rest := Insert(t, s[1..]);
      forall j | 0 <= j < |rest| ensures !Less(s[0], rest[j]) {
        LessTotal(t, s[0]);
        assert rest[j] in multiset(rest);
        assert rest[j] == t || rest[j] in s[1..];
      }
    }
  }

  lemma {:induction false} SortSorts(s: seq<Tag>)
    ensures Descending(SortTagsNewestFirst(s)) && multiset(SortTagsNewestFirst(s)) == multiset(s)
  {
    if s != [] {
      SortSorts(s[1..]);
      InsertSorts(s[0], SortTagsNewestFirst(s[1..]));
      assert s == [s[0]] + s[1..];
    }
  }

  predicate Distinct(s: seq<Tag>) {
    forall i, j | 0 <= i < j < |s| :: s[i] != s[j]
  }

  /** The date-time tags of a list, each once. */
  method FilterDateTimeTags(tags: seq<Tag>) returns (out: seq<Tag>)
    ensures Distinct(out) && forall t :: t in out <==> t in tags && IsDateTimeTag(t)
  {
    out := [];
    var seen: set<Tag> := {};
    for k := 0 to |tags|
      invariant Distinct(out) && (forall t :: t in seen <==> t in out)
      invariant forall t :: t in out <==> t in tags[..k] && IsDateTimeTag(t)
    {
      if IsDateTimeTag(tags[k]) && tags[k] !in seen {
        seen := seen + {tags[k]};
        out := out + [tags[k]];
      }
    }
  }

  /** `t` is the greatest date-time tag of the list, or "" when it has none. */
  ghost predicate IsNewest(tags: seq<Tag>, t: Tag) {
    && (t == "" || (t in tags && IsDateTimeTag(t)))
    && (forall u | u in tags && IsDateTimeTag(u) :: t != "" && !Less(t, u))
  }

  lemma NewestUnique(tags: seq<Tag>, t: Tag, u: Tag)
    requires IsNewest(tags, t) && IsNewest(tags, u)
    ensures t == u
  {
    LessTotal(t, u);
  }

  method NewestDateTimeTag(tags: seq<Tag>) returns (newest: Tag)
    ensures IsNewest(tags, newest)
  {
    newest := "";
    for k := 0 to |tags|
      invariant IsNewest(tags[..k], newest)
    {
      var t := tags[k];
      assert tags[..k + 1] == tags[..k] + [t];
      if IsDateTimeTag(t) && Less(newest, t) {
        forall u | u in tags[..k] && IsDateTimeTag(u) ensures !Less(t, u) {
          LessTotal(newest, t);
          NotLessTransitive(t, newest, u);
        }
        LessTotal(t, t);
        newest := t;
      } else if IsDateTimeTag(t) {
        assert newest != "";
      }
    }
    assert tags[..|tags|] == tags;
  }

  /** True exactly when the current tag is a date-time tag below the newest one. */
  method UpgradeAvailable(current: Tag, tags: seq<Tag>, ghost newest: Tag) returns (b: bool)
    requires IsNewest(tags, newest)
    ensures b <==> IsDateTimeTag(current) && newest != "" && Less(current, newest)
  {
    if !IsDateTimeTag(current) { return false; }
    for k := 0 to |tags|
      invariant forall i | 0 <= i < k && IsDateTimeTag(tags[i]) :: !Less(current, tags[i])
    {
      if IsDateTimeTag(tags[k]) && Less(current, tags[k]) {
        assert tags[k] in tags;
        if newest != tags[k] {
          LessTotal(newest, tags[k]);
          LessTransitive(current, tags[k], newest);
        }
        return true;
      }
    }
    return false;
  }

  // ---------------------------------------------------------------- the default tag

  const FALLBACK: Tag := "latest"

  predicate HasDateTime(tags: seq<Tag>) {
    exists t :: t in tags && IsDateTimeTag(t)
  }

  predicate HasTag(tags: seq<Tag>) {
    exists t :: t in tags && t != ""
  }

  /** The newest local date-time tag, else the greatest local tag, else the newest published one, else the fallback. */
  ghost predicate IsDefault(local: seq<Tag>, registry: seq<Tag>, t: Tag) {
    if HasDateTime(local) then IsNewest(local, t)
    else if HasTag(local) then t in local && t != "" && forall u | u in local && u != "" :: !Less(t, u)
    else if HasDateTime(registry) then IsNewest(registry, t)
    else t == FALLBACK
  }

  lemma DefaultUnique(local: seq<Tag>, registry: seq<Tag>, t: Tag, u: Tag)
    requires IsDefault(local, registry, t) && IsDefault(local, registry, u)
    ensures t == u
  {
    if HasDateTime(local) { NewestUnique(local, t, u); }
    else if HasTag(local) { LessTotal(t, u); }
    else if HasDateTime(registry) { NewestUnique(registry, t, u); }
  }

  /** A host that holds any tag at all never needs a pull for the default. */
  lemma DefaultIsPresent(local: seq<Tag>, registry: seq<Tag>, t: Tag)
    requires IsDefault(local, registry, t) && HasTag(local)
    ensures t in local && t != ""
  {
    if HasDateTime(local) {
      var u :| u in local && IsDateTimeTag(u);
    }
  }

  method NonDateTimeTags(tags: seq<Tag>) returns (out: seq<Tag>)
    ensures Distinct(out) && forall t :: t in out <==> t in tags && t != "" && !IsDateTimeTag(t)
  {
    out := [];
    var seen: set<Tag> := {};
    for k := 0 to |tags|
      invariant Distinct(out) && (forall t :: t in seen <==> t in out)
      invariant forall t :: t in out <==> t in tags[..k] && t != "" && !IsDateTimeTag(t)
    {
      if tags[k] != "" && !IsDateTimeTag(tags[k]) && tags[k] !in seen {
        seen := seen + {tags[k]};
        out := out + [tags[k]];
      }
    }
  }

  lemma GreatestFirst(s: seq<Tag>)
    requires s != []
    ensures var r := SortTagsNewestFirst(s); |r| == |s| && r[0] in s && forall u | u in s :: !Less(r[0], u)
  {
    SortSorts(s);
    var r := SortTagsNewestFirst(s);
    assert |multiset(r)| == |multiset(s)|;
    assert r[0] in multiset(r);
    forall u | u in s ensures !Less(r[0], u) {
      assert u in multiset(s);
      var i :| 0 <= i < |r| && r[i] == u;
      LessTotal(u, u);
    }
  }

  method DefaultImageTag(local: seq<Tag>, registry: seq<Tag>) returns (t: Tag)
    ensures IsDefault(local, registry, t)
  {
    t := NewestDateTimeTag(local);
    if t != "" { return; }
    var others := NonDateTimeTags(local);
    if |others| > 0 {
      GreatestFirst(others);
      t := SortTagsNewestFirst(others)[0];
      assert t in others;
      return;
    }
    forall u | u in local ensures u == "" { assert u !in others && !IsDateTimeTag(u); }
    t := NewestDateTimeTag(registry);
    if t != "" { return; }
    t := FALLBACK;
  }

  // ---------------------------------------------------------------- the offer

  const OFFERED_LIMIT := 5

  datatype TagOption = TagOption(tag: Tag, present: bool)

  ghost function Above(tags: seq<Tag>, t: Tag): set<Tag> {
    set u | u in tags && IsDateTimeTag(u) && Less(t, u)
  }

  /** One of the five newest distinct date-time tags of the list. */
  ghost predicate AmongNewest(tags: seq<Tag>, t: Tag) {
    t in tags && IsDateTimeTag(t) && |Above(tags, t)| < OFFERED_LIMIT
  }

  ghost predicate Offerable(registry: seq<Tag>, local: seq<Tag>, default: Tag, t: Tag) {
    t != "" && (AmongNewest(registry, t) || t in local || t == default)
  }

  predicate StrictlyDescending(s: seq<Tag>) {
    forall i, j | 0 <= i < j < |s| :: Less(s[j], s[i])
  }

  lemma SortDistinct(s: seq<Tag>)
    requires Distinct(s)
    ensures var r := SortTagsNewestFirst(s); StrictlyDescending(r) && |r| == |s| && forall t :: t in r <==> t in s
  {
    SortSorts(s);
    var r := SortTagsNewestFirst(s);
    assert |multiset(r)| == |multiset(s)|;
    forall t ensures t in r <==> t in s { assert t in multiset(r) <==> t in multiset(s); }
    forall i, j | 0 <= i < j < |r| ensures Less(r[j], r[i]) {
      LessTotal(r[i], r[j]);
      if r[i] == r[j] { Duplicate(r, i, j); DistinctOnce(s, r[i]); }
    }
  }

  lemma Duplicate(s: seq<Tag>, i: int, j: int)
    requires 0 <= i < j < |s| && s[i] == s[j]
    ensures multiset(s)[s[i]] >= 2
  {
    assert s == s[..j] + [s[j]] + s[j + 1..];
    assert s[i] in s[..j];
  }

  lemma {:induction false} DistinctOnce(s: seq<Tag>, t: Tag)
    requires Distinct(s)
    ensures multiset(s)[t] <= 1
  {
    if s != [] {
      var n := |s| - 1;
      assert s == s[..n] + [s[n]];
      DistinctOnce(s[..n], t);
    }
  }

  /** In a strictly descending list exactly i elements are above the i-th. */
  lemma AboveAt(tags: seq<Tag>, s: seq<Tag>, i: nat)
    requires StrictlyDescending(s) && i < |s| && forall t :: t in s <==> t in tags && IsDateTimeTag(t)
    ensures |Above(tags, s[i])| == i
  {
    var front := set k | 0 <= k < i :: s[k];
    forall u ensures u in Above(tags, s[i]) <==> u in front {
      if u in Above(tags, s[i]) {
        var k :| 0 <= k < |s| && s[k] == u;
        LessTotal(s[i], u);
      }
    }
    assert Above(tags, s[i]) == front;
    PrefixSize(s, i);
  }

  lemma {:induction false} PrefixSize(s: seq<Tag>, i: nat)
    requires StrictlyDescending(s) && i <= |s|
    ensures |set k | 0 <= k < i :: s[k]| == i
  {
    var front := set k | 0 <= k < i :: s[k];
    if i == 0 {
      assert front == {};
    } else {
      PrefixSize(s, i - 1);
      forall k | 0 <= k < i - 1 ensures s[k] != s[i - 1] { LessTotal(s[k], s[i - 1]); }
      assert front == (set k | 0 <= k < i - 1 :: s[k]) + {s[i - 1]};
    }
  }

  /** The five newest published tags. */
  method NewestPublished(registry: seq<Tag>) returns (out: seq<Tag>)
    ensures forall t :: t in out <==> AmongNewest(registry, t)
  {
    var tags := FilterDateTimeTags(registry);
    SortDistinct(tags);
    var sorted := SortTagsNewestFirst(tags);
    out := if |sorted| > OFFERED_LIMIT then sorted[..OFFERED_LIMIT] else sorted;
    forall t ensures t in out <==> AmongNewest(registry, t) {
      if t in sorted {
        var i :| 0 <= i < |sorted| && sorted[i] == t;
        AboveAt(registry, sorted, i);
        if t in out {
          var j :| 0 <= j < |out| && out[j] == t;
          AboveAt(registry, sorted, j);
        }
      }
    }
  }

  /** The elements of a set in some order. */
  method Listing(s: set<Tag>) returns (out: seq<Tag>)
    ensures Distinct(out) && forall t :: t in out <==> t in s
  {
    out := [];
    var rest := s;
    while rest != {}
      invariant rest <= s && Distinct(out) && forall t :: t in out <==> t in s - rest
      decreases |rest|
    {
      var t :| t in rest;
      assert t !in out;
      rest := rest - {t};
      out := out + [t];
    }
  }

  /**
   The offer is strictly descending, marks exactly the tags the host holds, and consists of the five
   newest published date-time tags, every tag of the host, and the default.
   */
  method OfferedImageTags(registry: seq<Tag>, local: seq<Tag>, default: Tag) returns (out: seq<TagOption>)
    ensures forall i, j | 0 <= i < j < |out| :: Less(out[j].tag, out[i].tag)
    ensures forall i | 0 <= i < |out| :: out[i].present <==> out[i].tag in local
    ensures forall t :: Offerable(registry, local, default, t) <==> exists i :: 0 <= i < |out| && out[i].tag == t
  {
    var published := NewestPublished(registry);
    var held := set t | t in local && t != "";
    var offered := (set t | t in published && t != "") + held + (if default != "" then {default} else {});
    var tags := Listing(offered);
    SortDistinct(tags);
    var sorted := SortTagsNewestFirst(tags);
    out := MarkPresent(sorted, held);
    forall t ensures Offerable(registry, local, default, t) <==> t in sorted { assert t in sorted <==> t in offered; }
    forall i | 0 <= i < |out| ensures out[i].present <==> out[i].tag in local { assert sorted[i] in sorted; }
    forall t ensures t in sorted <==> exists i :: 0 <= i < |out| && out[i].tag == t {
      if t in sorted {
        var i :| 0 <= i < |sorted| && sorted[i] == t;
        assert out[i].tag == t;
      }
    }
  }

  method MarkPresent(tags: seq<Tag>, held: set<Tag>) returns (out: seq<TagOption>)
    ensures |out| == |tags| && forall i | 0 <= i < |out| :: out[i] == TagOption(tags[i], tags[i] in held)
  {
    out := [];
    for k := 0 to |tags|
      invariant |out| == k && forall i | 0 <= i < k :: out[i] == TagOption(tags[i], tags[i] in held)
    {
      out := out + [TagOption(tags[k], tags[k] in held)];
    }
  }

  /** With the computed default, a host that holds any tag offers a default that is present. */
  method OfferedDefault(registry: seq<Tag>, local: seq<Tag>) returns (default: Tag, out: seq<TagOption>)
    ensures IsDefault(local, registry, default)
    ensures exists i :: 0 <= i < |out| && out[i].tag == default && (HasTag(local) ==> out[i].present)
  {
    default := DefaultImageTag(local, registry);
    out := OfferedImageTags(registry, local, default);
    if HasTag(local) { DefaultIsPresent(local, registry, default); }
    assert default != "" by {
      if HasDateTime(registry) { var u :| u in registry && IsDateTimeTag(u); }
    }
    assert Offerable(registry, local, default, default);
  }
}
