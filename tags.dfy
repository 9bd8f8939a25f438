/** The server tags cog (cogs/tags.py): the guards of create, remove and edit
    over the tags table, and the ten-per-page listing. */
module Tags {
  import opened Common

  /** A row of the tags table; the created and modified stamps are left out. */
  datatype TagRow = TagRow(guild: Id, author: Id, name: string, text: string)

  datatype TagError = NameTooLong | AlreadyExists | NoSuchTag | NotTagOwner | NoTags

  const MaxTagNameLength := 54
  const PageSize := 10

  predicate Names(r: TagRow, guild: Id, name: string) {
    r.guild == guild && r.name == name
  }

  /** SELECT ... WHERE name = ? AND guildid = ? with fetchone: the first such row. */
  function FindTag(rows: seq<TagRow>, guild: Id, name: string): (r: Option<nat>)
    ensures r.None? <==> forall i :: 0 <= i < |rows| ==> !Names(rows[i], guild, name)
    ensures r.Some? ==>
      r.value < |rows| && Names(rows[r.value], guild, name) &&
      forall i :: 0 <= i < r.value ==> !Names(rows[i], guild, name)
  {
    if |rows| == 0 then None
    else if Names(rows[0], guild, name) then Some(0)
    else match FindTag(rows[1..], guild, name)
      case None => None
      case Some(k) => Some(k + 1)
  }

  /** The tag command: the text of the first row with that name in the
      guild, and nothing when there is no such row. */
  function TagText(rows: seq<TagRow>, guild: Id, name: string): (r: Option<string>)
    ensures r.None? <==> forall i :: 0 <= i < |rows| ==> !Names(rows[i], guild, name)
    ensures r.Some? ==> exists i :: 0 <= i < |rows| && Names(rows[i], guild, name) && rows[i].text == r.value &&
                                    (forall j :: 0 <= j < i ==> !Names(rows[j], guild, name))
  {
    match FindTag(rows, guild, name)
    case None => None
    case Some(i) => Some(rows[i].text)
  }

  /** tag create: a name over 54 characters or already used in the guild is
      refused; otherwise the row is inserted and the tag then reads back
      with its text. */
  function CreateTag(rows: seq<TagRow>, guild: Id, author: Id, name: string, text: string)
    : (r: Result<seq<TagRow>, TagError>)
    ensures |name| > MaxTagNameLength <==> r == Failure(NameTooLong)
    ensures r == Failure(AlreadyExists) <==>
      |name| <= MaxTagNameLength && exists i :: 0 <= i < |rows| && Names(rows[i], guild, name)
    ensures r.Success? ==> r.value == rows + [TagRow(guild, author, name, text)]
    ensures r.Success? ==> TagText(r.value, guild, name) == Some(text)
  {
    if |name| > MaxTagNameLength then Failure(NameTooLong)
    else if FindTag(rows, guild, name).Some? then Failure(AlreadyExists)
    else
      var rows' := rows + [TagRow(guild, author, name, text)];
      assert Names(rows'[|rows|], guild, name);
      assert forall i :: 0 <= i < |rows| ==> rows'[i] == rows[i];
      assert FindTag(rows', guild, name) == Some(|rows|);
      Success(rows')
  }

  /** Whether the caller may change a tag: its author, or a member with the
      manage-messages permission. */
  predicate MayChange(row: TagRow, caller: Id, manageMessages: bool) {
    row.author == caller || manageMessages
  }

  /** tag remove: refused when there is no such tag or the caller may not
      change its first row; otherwise every row of that name in the guild is
      deleted and no other row. */
  function RemoveTag(rows: seq<TagRow>, guild: Id, caller: Id, name: string, manageMessages: bool)
    : (r: Result<seq<TagRow>, TagError>)
    ensures r == Failure(NoSuchTag) <==> FindTag(rows, guild, name).None?
    ensures r == Failure(NotTagOwner) <==>
      FindTag(rows, guild, name).Some? && !MayChange(rows[FindTag(rows, guild, name).value], caller, manageMessages)
    ensures r.Success? ==>
      TagText(r.value, guild, name).None? &&
      forall t :: t in r.value <==> t in rows && !Names(t, guild, name)
  {
    match FindTag(rows, guild, name)
    case None => Failure(NoSuchTag)
    case Some(i) =>
      if MayChange(rows[i], caller, manageMessages) then Success(DeleteTagRows(rows, guild, name))
      else Failure(NotTagOwner)
  }

  /** DELETE FROM tags WHERE name = ? AND guildid = ?. */
  function DeleteTagRows(rows: seq<TagRow>, guild: Id, name: string): (r: seq<TagRow>)
    ensures forall t :: t in r <==> t in rows && !Names(t, guild, name)
    ensures forall i :: 0 <= i < |r| ==> !Names(r[i], guild, name)
  {
    if |rows| == 0 then []
    else if Names(rows[0], guild, name) then DeleteTagRows(rows[1..], guild, name)
    else [rows[0]] + DeleteTagRows(rows[1..], guild, name)
  }

  /** UPDATE tags SET text = ? WHERE name = ? AND guildid = ?. */
  function SetTagText(rows: seq<TagRow>, guild: Id, name: string, text: string): (r: seq<TagRow>)
    ensures |r| == |rows|
    ensures forall i :: 0 <= i < |r| ==>
      r[i] == if Names(rows[i], guild, name) then rows[i].(text := text) else rows[i]
  {
    seq(|rows|, i requires 0 <= i < |rows| =>
      if Names(rows[i], guild, name) then rows[i].(text := text) else rows[i])
  }

  /** tag edit: the same refusals as remove; otherwise the tag reads back with
      the new text and every row keeps its guild, author and name. */
  function EditTag(rows: seq<TagRow>, guild: Id, caller: Id, name: string, manageMessages: bool, text: string)
    : (r: Result<seq<TagRow>, TagError>)
    ensures r == Failure(NoSuchTag) <==> FindTag(rows, guild, name).None?
    ensures r == Failure(NotTagOwner) <==>
      FindTag(rows, guild, name).Some? && !MayChange(rows[FindTag(rows, guild, name).value], caller, manageMessages)
    ensures r.Success? ==>
      TagText(r.value, guild, name) == Some(text) &&
      |r.value| == |rows| &&
      forall i :: 0 <= i < |rows| ==> r.value[i].(text := rows[i].text) == rows[i]
  {
    match FindTag(rows, guild, name)
    case None => Failure(NoSuchTag)
    case Some(i) =>
      if MayChange(rows[i], caller, manageMessages) then
        var rows' := SetTagText(rows, guild, name, text);
        assert FindTag(rows', guild, name) == Some(i) by {
          SameNamesSameFind(rows, rows', guild, name);
        }
        Success(rows')
      else Failure(NotTagOwner)
  }

  lemma {:induction false} SameNamesSameFind(rows: seq<TagRow>, rows': seq<TagRow>, guild: Id, name: string)
    requires |rows| == |rows'|
    requires forall i :: 0 <= i < |rows| ==> (Names(rows[i], guild, name) <==> Names(rows'[i], guild, name))
    ensures FindTag(rows', guild, name) == FindTag(rows, guild, name)
  {
    if |rows| > 0 {
      SameNamesSameFind(rows[1..], rows'[1..], guild, name);
    }
  }

  // ---------------------------------------------------------------------
  // Listing

  /** One embed of the listing: its title and the names in its field. */
  datatype Page = Page(title: string, names: seq<string>)

  /** The names of the pages, in order. */
  function Flatten(pages: seq<Page>): seq<string> {
    if |pages| == 0 then [] else Flatten(pages[..|pages| - 1]) + pages[|pages| - 1].names
  }

  function Min(a: int, b: int): int {
    if a < b then a else b
  }

  /** "Page i/n". */
  function PageTitle(i: nat, n: nat): string {
    "Page " + NatToString(i) + "/" + NatToString(n)
  }

  /** The loops of _list: pages of ten names taken while start <= tag_count,
      then every page titled with its 1-based number and the page count. */
  method Paginate(names: seq<string>) returns (pages: seq<Page>)
    ensures |pages| == |names| / PageSize + 1
    ensures Flatten(pages) == names
    ensures forall i :: 0 <= i < |pages| ==> |pages[i].names| <= PageSize
    ensures forall i :: 0 <= i < |pages| ==>
      pages[i].names == names[PageSize * i .. Min(PageSize * i + PageSize, |names|)]
    ensures forall i :: 0 <= i < |pages| ==> pages[i].title == PageTitle(i + 1, |pages|)
  {
    var tagCount := |names|;
    var start := 0;
    pages := [];
    while start <= tagCount
      invariant start == PageSize * |pages|
      invariant start <= tagCount + PageSize
      invariant Flatten(pages) == names[..Min(start, tagCount)]
      invariant forall i :: 0 <= i < |pages| ==>
        pages[i].names == names[PageSize * i .. Min(PageSize * i + PageSize, tagCount)]
      decreases tagCount + 1 - start
    {
      var end := start + PageSize;
      if end > tagCount {
        end := tagCount;
      }
      var page := Page("", names[start..end]);
      assert pages + [page] == (pages + [page])[..|pages|] + [page];
      assert names[..end] == names[..start] + names[start..end];
      pages := pages + [page];
      start := start + PageSize;
    }
    var pageCount := |pages|;
    ghost var untitled := pages;
    for i := 0 to pageCount
      invariant |pages| == pageCount
      invariant forall j :: 0 <= j < pageCount ==> pages[j].names == untitled[j].names
      invariant forall j :: 0 <= j < i ==> pages[j].title == PageTitle(j + 1, pageCount)
    {
      pages := pages[i := pages[i].(title := PageTitle(i + 1, pageCount))];
    }
    SameNamesSameFlatten(untitled, pages);
  }

  lemma {:induction false} SameNamesSameFlatten(a: seq<Page>, b: seq<Page>)
    requires |a| == |b| && forall j :: 0 <= j < |a| ==> a[j].names == b[j].names
    ensures Flatten(a) == Flatten(b)
  {
    if |a| > 0 {
      SameNamesSameFlatten(a[..|a| - 1], b[..|b| - 1]);
    }
  }

  /** When the count is a non-zero multiple of ten the last page is empty,
      because the loop also runs with start equal to the count. */
  lemma TrailingEmptyPage(names: seq<string>, pages: seq<Page>)
    requires |names| % PageSize == 0
    requires |pages| == |names| / PageSize + 1
    requires forall i :: 0 <= i < |pages| ==>
      pages[i].names == names[PageSize * i .. Min(PageSize * i + PageSize, |names|)]
    ensures pages[|pages| - 1].names == []
  {
  }

  /** tag list: the names of the guild's tags, or of those the given member
      wrote; no names is an error and builds no pages. */
  method ListTags(rows: seq<TagRow>, guild: Id, member: Option<Id>) returns (r: Result<seq<Page>, TagError>)
    ensures r == Failure(NoTags) <==> |SelectNames(rows, guild, member)| == 0
    ensures r.Success? ==>
      Flatten(r.value) == SelectNames(rows, guild, member) &&
      |r.value| == |SelectNames(rows, guild, member)| / PageSize + 1
  {
    var tagNames := SelectNames(rows, guild, member);
    if |tagNames| == 0 {
      return Failure(NoTags);
    }
    var pages := Paginate(tagNames);
    r := Success(pages);
  }

  /** SELECT name FROM tags WHERE guildid = ? [AND authorid = ?]. */
  function SelectNames(rows: seq<TagRow>, guild: Id, member: Option<Id>): (names: seq<string>)
    ensures forall n :: n in names <==>
      exists t :: t in rows && t.guild == guild && t.name == n && (member.Some? ==> t.author == member.value)
  {
    if |rows| == 0 then []
    else
      var t := rows[0];
      var rest := SelectNames(rows[1..], guild, member);
      assert forall u :: u in rows <==> u == t || u in rows[1..];
      if t.guild == guild && (member.Some? ==> t.author == member.value) then [t.name] + rest else rest
  }
}
