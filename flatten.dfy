/**
 * Flattening a scraped profile into the single row written to the
 * spreadsheet: the profile details under their own names, experience and
 * education entries under `exp_<i>_<key>` and `edu_<i>_<key>`, the skills
 * and the image URL, and the items of eight optional sections under
 * `<section>_<i>_<key>` (object items) or `<section>_<i>` (other items).
 *
 * The row is an insertion-ordered dictionary built by assignments; the
 * specification is the sequence of those assignments (`Writes`), and the
 * lemmas say which value each column ends up holding.
 */
module ProfileFlatten {
  import opened Values
  import opened Numerals

  /** The optional sections, in the order they are flattened. */
  const Sections: seq<string> := ["certifications", "honors", "test_scores", "languages",
                                  "volunteer_experiences", "projects", "publications", "courses"]

  // ---------------------------------------------------------------------
  // Reading the profile
  // ---------------------------------------------------------------------

  /** What `enumerate(j)` walks over: the items of a list, the keys of an
      object, the one-character strings of a string; other values cannot
      be iterated. */
  function Items(j: Json): Option<seq<Json>>
  {
    match j
    case List(items) => Some(items)
    case Object(fields) => Some(seq(|fields|, m requires 0 <= m < |fields| => Str(fields[m].0)))
    case Str(s) => Some(seq(|s|, m requires 0 <= m < |s| => Str([s[m]])))
    case _ => None
  }

  /** The entries of a list whose every entry has `.items()`. */
  function RecordsOf(j: Json): (r: Option<seq<Record>>)
    ensures r.Some? ==> Items(j).Some? && |r.value| == |Items(j).value|
    ensures r.Some? ==> forall m :: 0 <= m < |r.value| ==> Items(j).value[m] == Object(r.value[m])
    ensures r.None? ==> Items(j).None? || exists m :: 0 <= m < |Items(j).value| && !Items(j).value[m].Object?
  {
    match Items(j)
    case None => None
    case Some(items) =>
      if forall m :: 0 <= m < |items| ==> items[m].Object? then
        Some(seq(|items|, m requires 0 <= m < |items| => items[m].fields))
      else None
  }

  /** The items of an optional section: none when it is missing or falsy. */
  function SectionItems(data: Record, name: string): (r: Option<seq<Json>>)
    ensures Lookup(data, name).None? ==> r == Some([])
    ensures Lookup(data, name).Some? && !Truthy(Lookup(data, name).value) ==> r == Some([])
    ensures Lookup(data, name).Some? && Truthy(Lookup(data, name).value) ==> r == Items(Lookup(data, name).value)
  {
    match Lookup(data, name)
    case None => Some([])
    case Some(v) => if !Truthy(v) then Some([]) else Items(v)
  }

  /** The parts of a profile that make up its row; `sections[s]` holds the
      items of `Sections[s]`. */
  datatype ProfileParts = ProfileParts(
    details: Record,
    experience: seq<Record>,
    education: seq<Record>,
    skills: Json,
    image: Json,
    sections: seq<seq<Json>>)

  predicate Aligned(p: ProfileParts) {
    |p.sections| == |Sections|
  }

  /** The parts of a profile, or None where flattening raises: a profile
      that is not an object, missing or non-object details, missing or
      non-iterable experience or education or entries without `.items()`,
      missing skills, or a truthy section that cannot be iterated. A missing
      image gives the empty string. */
  function Parts(profile: Json): (r: Option<ProfileParts>)
    ensures r.Some? ==> Aligned(r.value)
    ensures !profile.Object? ==> r.None?
  {
    if !profile.Object? then None
    else
      var d := profile.fields;
      var details := Lookup(d, "profile_details");
      var experience := Lookup(d, "experience");
      var education := Lookup(d, "education");
      var skills := Lookup(d, "skills");
      var found := seq(|Sections|, s requires 0 <= s < |Sections| => SectionItems(d, Sections[s]));
      if details.None? || !details.value.Object? then None
      else if experience.None? || RecordsOf(experience.value).None? then None
      else if education.None? || RecordsOf(education.value).None? then None
      else if skills.None? then None
      else if exists s :: 0 <= s < |found| && found[s].None? then None
      else Some(ProfileParts(
        details.value.fields,
        RecordsOf(experience.value).value,
        RecordsOf(education.value).value,
        skills.value,
        Lookup(d, "image").GetOr(Str("")),
        seq(|found|, s requires 0 <= s < |found| => found[s].GetOr([]))))
  }

  /** Flattening fails on a profile without details, experience,
      education or skills. */
  lemma PartsRequired(profile: Json)
    requires profile.Object?
    ensures Lookup(profile.fields, "profile_details").None? ==> Parts(profile).None?
    ensures Lookup(profile.fields, "experience").None? ==> Parts(profile).None?
    ensures Lookup(profile.fields, "education").None? ==> Parts(profile).None?
    ensures Lookup(profile.fields, "skills").None? ==> Parts(profile).None?
  {
  }

  /** A profile without an image gets the empty string, and a missing or
      falsy section contributes no items. */
  lemma PartsDefaults(profile: Json, s: nat)
    requires Parts(profile).Some? && s < |Sections|
    ensures Lookup(profile.fields, "image").None? ==> Parts(profile).value.image == Str("")
    ensures Lookup(profile.fields, Sections[s]).None? ==> Parts(profile).value.sections[s] == []
    ensures Lookup(profile.fields, Sections[s]).Some? && !Truthy(Lookup(profile.fields, Sections[s]).value) ==>
      Parts(profile).value.sections[s] == []
  {
  }

  // ---------------------------------------------------------------------
  // Column names
  // ---------------------------------------------------------------------

  /** `f'{name}_{i}{rest}'` */
  function Numbered(name: string, i: nat, rest: string): string {
    name + "_" + NatToString(i) + rest
  }

  /** `f'{name}_{i}_{key}'`: a field of the `i`-th entry. */
  function IndexedKey(name: string, i: nat, key: string): string {
    Numbered(name, i, "_" + key)
  }

  /** `f'{name}_{i}'`: the `i`-th item of a section, itself. */
  function ItemKey(name: string, i: nat): string {
    Numbered(name, i, "")
  }

  /** What may follow the number in a column name. */
  predicate Tail(rest: string) {
    rest == "" || rest[0] == '_'
  }

  /** The length of the run of digits that starts `s`. */
  function DigitRun(s: string): (n: nat)
    ensures n <= |s|
  {
    if s == [] || !IsDigit(s[0]) then 0 else 1 + DigitRun(s[1..])
  }

  /** Digits followed by a tail: the run of digits is exactly the digits. */
  lemma {:induction false} DigitRunOfTail(a: string, rest: string)
    requires forall m :: 0 <= m < |a| ==> IsDigit(a[m])
    requires Tail(rest)
    ensures DigitRun(a + rest) == |a|
    decreases |a|
  {
    if a == [] {
      assert a + rest == rest;
      if rest != "" {
        assert !IsDigit(rest[0]);
      }
    } else {
      assert (a + rest)[1..] == a[1..] + rest;
      DigitRunOfTail(a[1..], rest);
    }
  }

  /** A string of digits followed by a tail splits in one way only. */
  lemma DigitsThenTail(a: string, rest: string, b: string, rest': string)
    requires forall m :: 0 <= m < |a| ==> IsDigit(a[m])
    requires forall m :: 0 <= m < |b| ==> IsDigit(b[m])
    requires Tail(rest) && Tail(rest')
    requires a + rest == b + rest'
    ensures a == b && rest == rest'
  {
    var t := a + rest;
    DigitRunOfTail(a, rest);
    DigitRunOfTail(b, rest');
    assert a == t[..|a|] == b;
    assert rest == t[|a|..] == rest';
  }

  /** A column name gives back its number and its tail. */
  lemma NumberedInjective(name: string, i: nat, rest: string, j: nat, rest': string)
    requires Tail(rest) && Tail(rest')
    requires Numbered(name, i, rest) == Numbered(name, j, rest')
    ensures i == j && rest == rest'
  {
    var a, b := NatToString(i), NatToString(j);
    var n := |name| + 1;
    assert Numbered(name, i, rest) == (name + "_") + (a + rest);
    assert Numbered(name, j, rest') == (name + "_") + (b + rest');
    assert Numbered(name, i, rest)[n..] == a + rest;
    assert Numbered(name, j, rest')[n..] == b + rest';
    DigitsThenTail(a, rest, b, rest');
    NatToStringValue(i);
    NatToStringValue(j);
  }

  /** Field columns of the same entry differ when the fields do; columns of
      different entries always differ; and an item column is never a field
      column. */
  lemma IndexedKeyInjective(name: string, i: nat, k: string, j: nat, k': string)
    requires IndexedKey(name, i, k) == IndexedKey(name, j, k')
    ensures i == j && k == k'
  {
    NumberedInjective(name, i, "_" + k, j, "_" + k');
    assert k == ("_" + k)[1..];
    assert k' == ("_" + k')[1..];
  }

  lemma ItemKeyNotIndexed(name: string, i: nat, j: nat, k: string)
    ensures ItemKey(name, i) != IndexedKey(name, j, k)
  {
    if ItemKey(name, i) == IndexedKey(name, j, k) {
      NumberedInjective(name, i, "", j, "_" + k);
      assert false;
    }
  }

  /** The first two characters of a column name; every family of columns
      has its own. */
  function Head(k: string): (char, char) {
    if |k| < 2 then (' ', ' ') else (k[0], k[1])
  }

  lemma HeadOfNumbered(name: string, i: nat, rest: string)
    requires |name| >= 2
    ensures Head(Numbered(name, i, rest)) == (name[0], name[1])
  {
    assert Numbered(name, i, rest) == name + ("_" + NatToString(i) + rest);
  }

  const SectionHeads: set<(char, char)> :=
    {('c', 'e'), ('h', 'o'), ('t', 'e'), ('l', 'a'), ('v', 'o'), ('p', 'r'), ('p', 'u'), ('c', 'o')}

  /** The head of a section's columns. */
  function SectionHead(s: nat): (char, char)
    requires s < |Sections|
  {
    (Sections[s][0], Sections[s][1])
  }

  /** Each section has its own head, and no other family of columns has a
      section head. */
  lemma SectionHeadsDistinct()
    ensures forall s :: 0 <= s < |Sections| ==> |Sections[s]| >= 2 && SectionHead(s) in SectionHeads
    ensures forall s, t :: 0 <= s < t < |Sections| ==> SectionHead(s) != SectionHead(t)
    ensures ('e', 'x') !in SectionHeads && ('e', 'd') !in SectionHeads
    ensures ('s', 'k') !in SectionHeads && ('i', 'm') !in SectionHeads
  {
  }

  // ---------------------------------------------------------------------
  // The assignments
  // ---------------------------------------------------------------------

  type Writes = seq<(string, Json)>

  /** The assignments for the fields of the `i`-th entry of a list. */
  function Indexed(name: string, i: nat, rec: Record): (ws: Writes)
    ensures |ws| == |rec|
    ensures forall m :: 0 <= m < |rec| ==> ws[m] == (IndexedKey(name, i, rec[m].0), rec[m].1)
  {
    seq(|rec|, m requires 0 <= m < |rec| => (IndexedKey(name, i, rec[m].0), rec[m].1))
  }

  /** One block of assignments per entry. */
  function Blocks(name: string, recs: seq<Record>): (bs: seq<Writes>)
    ensures |bs| == |recs|
    ensures forall i :: 0 <= i < |recs| ==> bs[i] == Indexed(name, i, recs[i])
  {
    seq(|recs|, i requires 0 <= i < |recs| => Indexed(name, i, recs[i]))
  }

  /** The assignments for the `i`-th item of a section: its fields when it
      is an object, the item itself otherwise. */
  function ItemWrites(name: string, i: nat, item: Json): Writes {
    if item.Object? then Indexed(name, i, item.fields) else [(ItemKey(name, i), item)]
  }

  function SectionBlocks(name: string, items: seq<Json>): (bs: seq<Writes>)
    ensures |bs| == |items|
    ensures forall i :: 0 <= i < |items| ==> bs[i] == ItemWrites(name, i, items[i])
  {
    seq(|items|, i requires 0 <= i < |items| => ItemWrites(name, i, items[i]))
  }

  /** The assignments of each section, in order. */
  function SectionsBlocks(p: ProfileParts): (bs: seq<Writes>)
    requires Aligned(p)
    ensures |bs| == |Sections|
    ensures forall s :: 0 <= s < |Sections| ==> bs[s] == Concat(SectionBlocks(Sections[s], p.sections[s]))
  {
    seq(|Sections|, s requires 0 <= s < |Sections| => Concat(SectionBlocks(Sections[s], p.sections[s])))
  }

  /** The five groups of assignments, in the order they are made: the
      details, the experience, the education, skills and image, the
      sections. */
  function Groups(p: ProfileParts): (gs: seq<Writes>)
    requires Aligned(p)
    ensures |gs| == 5
  {
    [ p.details,
      Concat(Blocks("exp", p.experience)),
      Concat(Blocks("edu", p.education)),
      [("skill", p.skills), ("image_url", p.image)],
      Concat(SectionsBlocks(p)) ]
  }

  /** The flattened row. */
  function Flatten(p: ProfileParts): Record
    requires Aligned(p)
  {
    PutAll([], Concat(Groups(p)))
  }

  // ---------------------------------------------------------------------
  // Which assignment wins
  // ---------------------------------------------------------------------

  /** No assignment in `ws` is to `k`. */
  predicate NoKey(ws: Writes, k: string) {
    forall m :: 0 <= m < |ws| ==> ws[m].0 != k
  }

  /** Every assignment in `ws` is to a column with one of the heads `hs`. */
  predicate HeadsIn(ws: Writes, hs: set<(char, char)>) {
    forall m :: 0 <= m < |ws| ==> Head(ws[m].0) in hs
  }

  lemma NoKeyByHead(ws: Writes, hs: set<(char, char)>, k: string)
    requires HeadsIn(ws, hs) && Head(k) !in hs
    ensures NoKey(ws, k)
  {
  }

  lemma LastWriteSkip(a: Writes, b: Writes, k: string)
    requires NoKey(b, k)
    ensures LastWrite(a + b, k) == LastWrite(a, k)
  {
    LastWriteAbsent(b, k);
    LastWriteAppend(a, b, k);
  }

  lemma LastWriteTake(a: Writes, b: Writes, k: string)
    requires LastWrite(b, k).Some?
    ensures LastWrite(a + b, k) == LastWrite(b, k)
  {
    LastWriteAppend(a, b, k);
  }

  /** An assignment that no later assignment overwrites is the last one. */
  lemma {:induction false} LastWriteAt(ws: Writes, m: nat)
    requires m < |ws|
    requires forall n :: m < n < |ws| ==> ws[n].0 != ws[m].0
    ensures LastWrite(ws, ws[m].0) == Some(ws[m].1)
    decreases |ws|
  {
    if m < |ws| - 1 {
      var init := ws[..|ws| - 1];
      assert init[m] == ws[m];
      LastWriteAt(init, m);
    }
  }

  /** Over a list of blocks, the last assignment to `k` is in the last block
      that assigns it. */
  lemma {:induction false} LastWriteConcat(bs: seq<Writes>, i: nat, k: string)
    requires i < |bs| && LastWrite(bs[i], k).Some?
    requires forall j :: i < j < |bs| ==> NoKey(bs[j], k)
    ensures LastWrite(Concat(bs), k) == LastWrite(bs[i], k)
    decreases |bs|
  {
    var init := bs[..|bs| - 1];
    assert Concat(bs) == Concat(init) + bs[|bs| - 1];
    if i == |bs| - 1 {
      LastWriteTake(Concat(init), bs[i], k);
    } else {
      LastWriteSkip(Concat(init), bs[|bs| - 1], k);
      assert init[i] == bs[i];
      LastWriteConcat(init, i, k);
    }
  }

  lemma {:induction false} HeadsInConcat(bs: seq<Writes>, hs: set<(char, char)>)
    requires forall j :: 0 <= j < |bs| ==> HeadsIn(bs[j], hs)
    ensures HeadsIn(Concat(bs), hs)
    decreases |bs|
  {
    if bs != [] {
      var init := bs[..|bs| - 1];
      assert forall j :: 0 <= j < |init| ==> init[j] == bs[j];
      HeadsInConcat(init, hs);
      assert Concat(bs) == Concat(init) + bs[|bs| - 1];
    }
  }

  lemma HeadsInIndexed(name: string, i: nat, rec: Record)
    requires |name| >= 2
    ensures HeadsIn(Indexed(name, i, rec), {(name[0], name[1])})
  {
    forall m | 0 <= m < |rec| ensures Head(Indexed(name, i, rec)[m].0) == (name[0], name[1]) {
      HeadOfNumbered(name, i, "_" + rec[m].0);
    }
  }

  lemma HeadsInBlocks(name: string, recs: seq<Record>)
    requires |name| >= 2
    ensures HeadsIn(Concat(Blocks(name, recs)), {(name[0], name[1])})
  {
    forall i | 0 <= i < |recs| ensures HeadsIn(Blocks(name, recs)[i], {(name[0], name[1])}) {
      HeadsInIndexed(name, i, recs[i]);
    }
    HeadsInConcat(Blocks(name, recs), {(name[0], name[1])});
  }

  lemma HeadsInSection(name: string, items: seq<Json>)
    requires |name| >= 2
    ensures HeadsIn(Concat(SectionBlocks(name, items)), {(name[0], name[1])})
  {
    forall i | 0 <= i < |items| ensures HeadsIn(SectionBlocks(name, items)[i], {(name[0], name[1])}) {
      if items[i].Object? {
        HeadsInIndexed(name, i, items[i].fields);
      } else {
        HeadOfNumbered(name, i, "");
      }
    }
    HeadsInConcat(SectionBlocks(name, items), {(name[0], name[1])});
  }

  /** Every group after the details assigns only columns of its own heads. */
  lemma GroupHeads(p: ProfileParts)
    requires Aligned(p)
    ensures HeadsIn(Groups(p)[1], {('e', 'x')})
    ensures HeadsIn(Groups(p)[2], {('e', 'd')})
    ensures HeadsIn(Groups(p)[3], {('s', 'k'), ('i', 'm')})
    ensures HeadsIn(Groups(p)[4], SectionHeads)
  {
    HeadsInBlocks("exp", p.experience);
    HeadsInBlocks("edu", p.education);
    assert Head("skill") == ('s', 'k') && Head("image_url") == ('i', 'm');
    SectionHeadsDistinct();
    forall s | 0 <= s < |Sections| ensures HeadsIn(SectionsBlocks(p)[s], SectionHeads) {
      HeadsInSection(Sections[s], p.sections[s]);
    }
    HeadsInConcat(SectionsBlocks(p), SectionHeads);
  }

  /** The cell of a column is the value of the last assignment to it. */
  lemma FlattenLookup(p: ProfileParts, k: string)
    requires Aligned(p)
    ensures Lookup(Flatten(p), k) == LastWrite(Concat(Groups(p)), k)
  {
    PutAllLookup([], Concat(Groups(p)), k);
  }

  /** The cell of a column is what the last group assigning it assigns. */
  lemma FlattenGroup(p: ProfileParts, g: nat, k: string)
    requires Aligned(p) && g < 5
    requires LastWrite(Groups(p)[g], k).Some?
    requires forall j :: g < j < 5 ==> NoKey(Groups(p)[j], k)
    ensures Lookup(Flatten(p), k) == LastWrite(Groups(p)[g], k)
  {
    LastWriteConcat(Groups(p), g, k);
    FlattenLookup(p, k);
  }

  /** Within one entry with distinct keys, each field's column gets the
      field's value. */
  lemma IndexedField(name: string, i: nat, rec: Record, m: nat)
    requires m < |rec| && UniqueKeys(rec)
    ensures LastWrite(Indexed(name, i, rec), IndexedKey(name, i, rec[m].0)) == Some(rec[m].1)
  {
    var ws := Indexed(name, i, rec);
    forall n | m < n < |ws| ensures ws[n].0 != ws[m].0 {
      if ws[n].0 == ws[m].0 {
        IndexedKeyInjective(name, i, rec[n].0, i, rec[m].0);
      }
    }
    LastWriteAt(ws, m);
  }

  /** Other entries never assign a field column of the `i`-th entry. */
  lemma OtherEntry(name: string, j: nat, rec: Record, i: nat, k: string)
    requires i != j
    ensures NoKey(Indexed(name, j, rec), IndexedKey(name, i, k))
  {
    forall m | 0 <= m < |rec| ensures Indexed(name, j, rec)[m].0 != IndexedKey(name, i, k) {
      if Indexed(name, j, rec)[m].0 == IndexedKey(name, i, k) {
        IndexedKeyInjective(name, j, rec[m].0, i, k);
      }
    }
  }

  /** Over all entries of a list, a field's column gets the field's value. */
  lemma BlocksField(name: string, recs: seq<Record>, i: nat, m: nat)
    requires i < |recs| && m < |recs[i]| && UniqueKeys(recs[i])
    ensures LastWrite(Concat(Blocks(name, recs)), IndexedKey(name, i, recs[i][m].0)) == Some(recs[i][m].1)
  {
    var k := IndexedKey(name, i, recs[i][m].0);
    IndexedField(name, i, recs[i], m);
    forall j | i < j < |recs| ensures NoKey(Blocks(name, recs)[j], k) {
      OtherEntry(name, j, recs[j], i, recs[i][m].0);
    }
    LastWriteConcat(Blocks(name, recs), i, k);
  }

  /** Flattening puts the `m`-th field of the `i`-th experience entry in
      column `exp_<i>_<field>`. */
  lemma FlattenExperience(p: ProfileParts, i: nat, m: nat)
    requires Aligned(p)
    requires i < |p.experience| && m < |p.experience[i]| && UniqueKeys(p.experience[i])
    ensures Lookup(Flatten(p), IndexedKey("exp", i, p.experience[i][m].0)) == Some(p.experience[i][m].1)
  {
    var gs := Groups(p);
    var k := IndexedKey("exp", i, p.experience[i][m].0);
    assert LastWrite(gs[1], k) == Some(p.experience[i][m].1) by {
      BlocksField("exp", p.experience, i, m);
    }
    assert forall j :: 1 < j < 5 ==> NoKey(gs[j], k) by {
      HeadOfNumbered("exp", i, "_" + p.experience[i][m].0);
      SectionHeadsDistinct();
      GroupHeads(p);
      NoKeyByHead(gs[2], {('e', 'd')}, k);
      NoKeyByHead(gs[3], {('s', 'k'), ('i', 'm')}, k);
      NoKeyByHead(gs[4], SectionHeads, k);
    }
    FlattenGroup(p, 1, k);
  }

  /** Flattening puts the `m`-th field of the `i`-th education entry in
      column `edu_<i>_<field>`. */
  lemma FlattenEducation(p: ProfileParts, i: nat, m: nat)
    requires Aligned(p)
    requires i < |p.education| && m < |p.education[i]| && UniqueKeys(p.education[i])
    ensures Lookup(Flatten(p), IndexedKey("edu", i, p.education[i][m].0)) == Some(p.education[i][m].1)
  {
    var gs := Groups(p);
    var k := IndexedKey("edu", i, p.education[i][m].0);
    assert LastWrite(gs[2], k) == Some(p.education[i][m].1) by {
      BlocksField("edu", p.education, i, m);
    }
    assert forall j :: 2 < j < 5 ==> NoKey(gs[j], k) by {
      HeadOfNumbered("edu", i, "_" + p.education[i][m].0);
      SectionHeadsDistinct();
      GroupHeads(p);
      NoKeyByHead(gs[3], {('s', 'k'), ('i', 'm')}, k);
      NoKeyByHead(gs[4], SectionHeads, k);
    }
    FlattenGroup(p, 2, k);
  }

  /** Column `skill` holds the skills and column `image_url` the image, for
      every profile. */
  lemma FlattenSkillsAndImage(p: ProfileParts)
    requires Aligned(p)
    ensures Lookup(Flatten(p), "skill") == Some(p.skills)
    ensures Lookup(Flatten(p), "image_url") == Some(p.image)
  {
    var gs := Groups(p);
    assert LastWrite(gs[3], "skill") == Some(p.skills);
    assert LastWrite(gs[3], "image_url") == Some(p.image);
    assert NoKey(gs[4], "skill") && NoKey(gs[4], "image_url") by {
      SectionHeadsDistinct();
      GroupHeads(p);
      assert Head("skill") == ('s', 'k') && Head("image_url") == ('i', 'm');
      NoKeyByHead(gs[4], SectionHeads, "skill");
      NoKeyByHead(gs[4], SectionHeads, "image_url");
    }
    FlattenGroup(p, 3, "skill");
    FlattenGroup(p, 3, "image_url");
  }

  /** Later items of a section never assign a column of the `i`-th item. */
  lemma OtherItem(name: string, j: nat, item: Json, i: nat, rest: string)
    requires i != j && Tail(rest)
    ensures NoKey(ItemWrites(name, j, item), Numbered(name, i, rest))
  {
    var ws := ItemWrites(name, j, item);
    forall m | 0 <= m < |ws| ensures ws[m].0 != Numbered(name, i, rest) {
      if item.Object? {
        if ws[m].0 == Numbered(name, i, rest) {
          NumberedInjective(name, j, "_" + item.fields[m].0, i, rest);
        }
      } else if ws[m].0 == Numbered(name, i, rest) {
        NumberedInjective(name, j, "", i, rest);
      }
    }
  }

  /** Within one section, the last assignment to a column of item `i` is
      made by item `i`. */
  lemma SectionColumn(name: string, items: seq<Json>, i: nat, rest: string)
    requires i < |items| && Tail(rest)
    requires LastWrite(ItemWrites(name, i, items[i]), Numbered(name, i, rest)).Some?
    ensures LastWrite(Concat(SectionBlocks(name, items)), Numbered(name, i, rest))
      == LastWrite(ItemWrites(name, i, items[i]), Numbered(name, i, rest))
  {
    forall j | i < j < |items| ensures NoKey(SectionBlocks(name, items)[j], Numbered(name, i, rest)) {
      OtherItem(name, j, items[j], i, rest);
    }
    LastWriteConcat(SectionBlocks(name, items), i, Numbered(name, i, rest));
  }

  /** Over the whole row, a column of section `sec` gets what section `sec`
      last assigns to it. */
  lemma FlattenSectionColumn(p: ProfileParts, sec: nat, k: string)
    requires Aligned(p) && sec < |Sections|
    requires Head(k) == SectionHead(sec)
    requires LastWrite(SectionsBlocks(p)[sec], k).Some?
    ensures Lookup(Flatten(p), k) == LastWrite(SectionsBlocks(p)[sec], k)
  {
    forall t | sec < t < |Sections| ensures NoKey(SectionsBlocks(p)[t], k) {
      SectionHeadsDistinct();
      HeadsInSection(Sections[t], p.sections[t]);
      NoKeyByHead(SectionsBlocks(p)[t], {SectionHead(t)}, k);
    }
    LastWriteConcat(SectionsBlocks(p), sec, k);
    FlattenGroup(p, 4, k);
  }

  /** Flattening puts an item of a section that is not an object in column
      `<section>_<i>`. */
  lemma FlattenSectionItem(p: ProfileParts, sec: nat, i: nat)
    requires Aligned(p) && sec < |Sections|
    requires i < |p.sections[sec]| && !p.sections[sec][i].Object?
    ensures Lookup(Flatten(p), ItemKey(Sections[sec], i)) == Some(p.sections[sec][i])
  {
    var name := Sections[sec];
    SectionHeadsDistinct();
    HeadOfNumbered(name, i, "");
    SectionColumn(name, p.sections[sec], i, "");
    FlattenSectionColumn(p, sec, ItemKey(name, i));
  }

  /** Flattening puts the `m`-th field of an object item of a section in
      column `<section>_<i>_<field>`. */
  lemma FlattenSectionField(p: ProfileParts, sec: nat, i: nat, m: nat)
    requires Aligned(p) && sec < |Sections|
    requires i < |p.sections[sec]| && p.sections[sec][i].Object?
    requires m < |p.sections[sec][i].fields| && UniqueKeys(p.sections[sec][i].fields)
    ensures Lookup(Flatten(p), IndexedKey(Sections[sec], i, p.sections[sec][i].fields[m].0))
      == Some(p.sections[sec][i].fields[m].1)
  {
    var name := Sections[sec];
    var fields := p.sections[sec][i].fields;
    SectionHeadsDistinct();
    HeadOfNumbered(name, i, "_" + fields[m].0);
    IndexedField(name, i, fields, m);
    SectionColumn(name, p.sections[sec], i, "_" + fields[m].0);
    FlattenSectionColumn(p, sec, IndexedKey(name, i, fields[m].0));
  }

  /** A detail whose column no later group can assign keeps its value. */
  lemma FlattenDetail(p: ProfileParts, m: nat)
    requires Aligned(p) && m < |p.details| && UniqueKeys(p.details)
    requires Head(p.details[m].0) !in SectionHeads + {('e', 'x'), ('e', 'd'), ('s', 'k'), ('i', 'm')}
    ensures Lookup(Flatten(p), p.details[m].0) == Some(p.details[m].1)
  {
    var gs := Groups(p);
    var k := p.details[m].0;
    assert LastWrite(gs[0], k) == Some(p.details[m].1) by {
      LastWriteAt(p.details, m);
    }
    assert forall j :: 0 < j < 5 ==> NoKey(gs[j], k) by {
      GroupHeads(p);
      NoKeyByHead(gs[1], {('e', 'x')}, k);
      NoKeyByHead(gs[2], {('e', 'd')}, k);
      NoKeyByHead(gs[3], {('s', 'k'), ('i', 'm')}, k);
      NoKeyByHead(gs[4], SectionHeads, k);
    }
    FlattenGroup(p, 0, k);
  }

  // ---------------------------------------------------------------------
  // The imperative flattening
  // ---------------------------------------------------------------------

  /** Performing one more block of assignments. */
  lemma PutBlock(rec: Record, bs: seq<Writes>, i: nat)
    requires i < |bs|
    ensures PutAll(PutAll(rec, Concat(bs[..i])), bs[i]) == PutAll(rec, Concat(bs[..i + 1]))
  {
    assert bs[..i + 1][..i] == bs[..i];
    PutAllAppend(rec, Concat(bs[..i]), bs[i]);
  }

  /** Two assignments in a row. */
  lemma PutTwo(rec: Record, a: (string, Json), b: (string, Json))
    ensures PutAll(rec, [a, b]) == Put(Put(rec, a.0, a.1), b.0, b.1)
  {
    assert PutAll(rec, [a]) == Put(rec, a.0, a.1) by {
      assert [a][..0] == [];
    }
    assert [a, b][..1] == [a];
  }

  /** `for k, v in pairs: flat[k] = v` */
  method PutEach(flat: Record, ws: Writes) returns (r: Record)
    ensures r == PutAll(flat, ws)
  {
    r := flat;
    for m := 0 to |ws|
      invariant r == PutAll(flat, ws[..m])
    {
      assert ws[..m + 1][..m] == ws[..m];
      r := Put(r, ws[m].0, ws[m].1);
    }
    assert ws[..|ws|] == ws;
  }

  /** `for key, val in rec.items(): flat[f'{name}_{i}_{key}'] = val` */
  method PutIndexed(flat: Record, name: string, i: nat, rec: Record) returns (r: Record)
    ensures r == PutAll(flat, Indexed(name, i, rec))
  {
    r := flat;
    ghost var ws := Indexed(name, i, rec);
    for m := 0 to |rec|
      invariant r == PutAll(flat, ws[..m])
    {
      assert ws[..m + 1][..m] == ws[..m];
      r := Put(r, IndexedKey(name, i, rec[m].0), rec[m].1);
    }
    assert ws[..|rec|] == ws;
  }

  /** The entries of experience or education, one after the other. */
  method PutEntries(flat: Record, name: string, recs: seq<Record>) returns (r: Record)
    ensures r == PutAll(flat, Concat(Blocks(name, recs)))
  {
    r := flat;
    ghost var bs := Blocks(name, recs);
    for i := 0 to |recs|
      invariant r == PutAll(flat, Concat(bs[..i]))
    {
      PutBlock(flat, bs, i);
      r := PutIndexed(r, name, i, recs[i]);
    }
    assert bs[..|recs|] == bs;
  }

  /** The items of one section, one after the other. */
  method PutSection(flat: Record, name: string, items: seq<Json>) returns (r: Record)
    ensures r == PutAll(flat, Concat(SectionBlocks(name, items)))
  {
    r := flat;
    ghost var bs := SectionBlocks(name, items);
    for i := 0 to |items|
      invariant r == PutAll(flat, Concat(bs[..i]))
    {
      PutBlock(flat, bs, i);
      if items[i].Object? {
        r := PutIndexed(r, name, i, items[i].fields);
      } else {
        assert [(ItemKey(name, i), items[i])][..0] == [];
        r := Put(r, ItemKey(name, i), items[i]);
      }
    }
    assert bs[..|items|] == bs;
  }

  /** The eight sections, one after the other. */
  method PutSections(flat: Record, p: ProfileParts) returns (r: Record)
    requires Aligned(p)
    ensures r == PutAll(flat, Concat(SectionsBlocks(p)))
  {
    r := flat;
    ghost var bs := SectionsBlocks(p);
    for s := 0 to |Sections|
      invariant r == PutAll(flat, Concat(bs[..s]))
    {
      PutBlock(flat, bs, s);
      r := PutSection(r, Sections[s], p.sections[s]);
    }
    assert bs[..|Sections|] == bs;
  }

  /** Performing five groups of assignments one group after the other. */
  lemma PutAllGroups(rec: Record, gs: seq<Writes>)
    requires |gs| == 5
    ensures PutAll(rec, Concat(gs))
      == PutAll(PutAll(PutAll(PutAll(PutAll(rec, gs[0]), gs[1]), gs[2]), gs[3]), gs[4])
  {
    assert gs[..0] == [];
    PutBlock(rec, gs, 0);
    PutBlock(rec, gs, 1);
    PutBlock(rec, gs, 2);
    PutBlock(rec, gs, 3);
    PutBlock(rec, gs, 4);
    assert gs[..5] == gs;
  }

  /** The assignments of `flatten_linkedin_profile`, group by group. */
  method FlattenParts(p: ProfileParts) returns (flat: Record)
    requires Aligned(p)
    ensures flat == Flatten(p)
  {
    ghost var gs := Groups(p);
    flat := PutEach([], p.details);
    flat := PutEntries(flat, "exp", p.experience);
    flat := PutEntries(flat, "edu", p.education);
    ghost var before := flat;
    flat := Put(flat, "skill", p.skills);
    flat := Put(flat, "image_url", p.image);
    PutTwo(before, ("skill", p.skills), ("image_url", p.image));
    flat := PutSections(flat, p);
    PutAllGroups([], gs);
  }

  /** `flatten_linkedin_profile`: the row of a profile, or None where the
      profile lacks a part flattening needs. */
  method FlattenProfile(profile: Json) returns (row: Option<Record>)
    ensures Parts(profile).None? ==> row.None?
    ensures Parts(profile).Some? ==> row == Some(Flatten(Parts(profile).value))
  {
    var parts := Parts(profile);
    if parts.None? {
      return None;
    }
    var flat := FlattenParts(parts.value);
    return Some(flat);
  }
}
