/**
 * The project tag strip (`ProjectTags`): the small input state machine that
 * adds a tag only when the trimmed entry is non-blank, new and under the cap,
 * the colour each tag gets, and which of the add button and the limit notice
 * are shown.
 */
module ProjectTags {
  import opened Wrappers
  import opened Domain
  import opened Storage

  // ---------------------------------------------------------------------------
  // String.prototype.trim
  // ---------------------------------------------------------------------------

  /**
   * The characters `trim` removes: the ECMAScript white space (tab, vertical
   * tab, form feed, space, no-break space, byte order mark and the other
   * space separators) and line terminators.
   */
  predicate IsSpace(c: char)
  {
    || '\U{9}' <= c <= '\U{D}'
    || c == '\U{20}' || c == '\U{A0}' || c == '\U{1680}'
    || '\U{2000}' <= c <= '\U{200A}'
    || c == '\U{2028}' || c == '\U{2029}' || c == '\U{202F}' || c == '\U{205F}'
    || c == '\U{3000}' || c == '\U{FEFF}'
  }

  /** A string made only of white space (the empty string included). */
  predicate IsBlank(s: string)
  {
    forall i :: 0 <= i < |s| ==> IsSpace(s[i])
  }

  /** How many white-space characters the string starts with. */
  function LeadingSpaces(s: string): (k: nat)
    ensures k <= |s|
    ensures forall i :: 0 <= i < k ==> IsSpace(s[i])
    ensures k < |s| ==> !IsSpace(s[k])
  {
    if s != [] && IsSpace(s[0]) then 1 + LeadingSpaces(s[1..]) else 0
  }

  /** How many white-space characters the string ends with. */
  function TrailingSpaces(s: string): (k: nat)
    ensures k <= |s|
    ensures forall i :: |s| - k <= i < |s| ==> IsSpace(s[i])
    ensures k < |s| ==> !IsSpace(s[|s| - 1 - k])
  {
    if s != [] && IsSpace(s[|s| - 1]) then 1 + TrailingSpaces(s[..|s| - 1]) else 0
  }

  /**
   * `s.trim()`: the part of `s` between its leading and its trailing white
   * space. It is empty exactly when `s` is blank, and otherwise starts and ends
   * with a non-space character.
   */
  function Trim(s: string): (r: string)
    ensures |r| <= |s|
    ensures LeadingSpaces(s) + |r| <= |s| && s[LeadingSpaces(s)..LeadingSpaces(s) + |r|] == r
    ensures forall i :: LeadingSpaces(s) + |r| <= i < |s| ==> IsSpace(s[i])
    ensures r == [] <==> IsBlank(s)
    ensures r != [] ==> !IsSpace(r[0]) && !IsSpace(r[|r| - 1])
  {
    var t := s[LeadingSpaces(s)..];
    var r := t[..|t| - TrailingSpaces(t)];
    assert r != [] ==> r[0] == s[LeadingSpaces(s)];
    r
  }

  /** Trimming twice is trimming once. */
  lemma TrimIdempotent(s: string)
    ensures Trim(Trim(s)) == Trim(s)
  {
    var r := Trim(s);
    if r != [] {
      assert LeadingSpaces(r) == 0;
      assert TrailingSpaces(r) == 0;
    }
  }

  // ---------------------------------------------------------------------------
  // The add guard
  // ---------------------------------------------------------------------------

  /** `maxTags = 5`: the cap when the parent passes none. */
  const DefaultMaxTags := 5

  /**
   * The guard of `handleAddTag`: the trimmed input is added exactly when it is
   * non-empty, not already a tag, and there are fewer than `maxTags` tags.
   */
  function TagToAdd(input: string, tags: seq<string>, maxTags: int): (r: Option<string>)
    ensures r.Some? <==> !IsBlank(input) && Trim(input) !in tags && |tags| < maxTags
    ensures r.Some? ==> r.value == Trim(input) && r.value != "" && !IsSpace(r.value[0])
  {
    var tag := Trim(input);
    if tag != "" && tag !in tags && |tags| < maxTags then Some(tag) else None
  }

  /** Surrounding white space makes no difference to what is added. */
  lemma TagToAddIgnoresPadding(input: string, tags: seq<string>, maxTags: int)
    ensures TagToAdd(Trim(input), tags, maxTags) == TagToAdd(input, tags, maxTags)
  {
    TrimIdempotent(input);
  }

  /** A tag strip without duplicates and within the cap stays so through the add guard. */
  lemma {:induction false} GuardKeepsTagsBounded(tags: seq<string>, input: string, maxTags: int)
    requires |tags| <= maxTags
    requires forall i, j :: 0 <= i < j < |tags| ==> tags[i] != tags[j]
    ensures var added := TagToAdd(input, tags, maxTags);
            var after := if added.Some? then tags + [added.value] else tags;
            && |after| <= maxTags
            && (forall i, j :: 0 <= i < j < |after| ==> after[i] != after[j])
  {
    var added := TagToAdd(input, tags, maxTags);
    if added.Some? {
      var after := tags + [added.value];
      forall i, j | 0 <= i < j < |after| ensures after[i] != after[j] {
        if j == |tags| {
          assert after[i] == tags[i] && tags[i] in tags;
        } else {
          assert after[i] == tags[i] && after[j] == tags[j];
        }
      }
    }
  }

  /**
   * The cap holds end to end although the repository does not enforce it: when
   * the stored project's tags are distinct and at most `maxTags`, a tag that
   * passes the guard and is then stored leaves them distinct and at most
   * `maxTags`.
   */
  lemma UiAddKeepsStoredTagsBounded(s: Store, fault: bool, input: string, maxTags: int, now: Instant)
    requires GetProjectInfo(s, now).Ok?
    requires var tags := GetProjectInfo(s, now).value.tags;
             && |tags| <= maxTags
             && forall i, j :: 0 <= i < j < |tags| ==> tags[i] != tags[j]
    ensures var added := TagToAdd(input, GetProjectInfo(s, now).value.tags, maxTags);
            var r := if added.Some? then AfterAddProjectTag(s, fault, added.value, now) else s;
            && GetProjectInfo(r, now).Ok?
            && |GetProjectInfo(r, now).value.tags| <= maxTags
            && (forall i, j :: 0 <= i < j < |GetProjectInfo(r, now).value.tags| ==>
                  GetProjectInfo(r, now).value.tags[i] != GetProjectInfo(r, now).value.tags[j])
  {
    var tags := GetProjectInfo(s, now).value.tags;
    GuardKeepsTagsBounded(tags, input, maxTags);
    var added := TagToAdd(input, tags, maxTags);
    if added.Some? {
      AddProjectTagKeepsTagsDistinct(s, fault, added.value, now);
    }
  }

  // ---------------------------------------------------------------------------
  // The input's state machine
  // ---------------------------------------------------------------------------

  /** The component with its `maxTags` prop and the two pieces of React state behind the tag input. */
  class TagInput {
    const maxTags: int
    var isAdding: bool
    var inputValue: string

    /** Mounting the component: the cap is 5 unless the parent passes one; the input starts closed and empty. */
    constructor (maxTags: int := DefaultMaxTags)
      ensures this.maxTags == maxTags && !isAdding && inputValue == ""
    {
      this.maxTags := maxTags;
      isAdding := false;
      inputValue := "";
    }

    /** The add button's `onClick`: opens the input, keeping whatever was typed. */
    method StartAdding()
      modifies this
      ensures isAdding && inputValue == old(inputValue)
    {
      isAdding := true;
    }

    /** The input's `onChange`. */
    method Change(value: string)
      modifies this
      ensures inputValue == value && isAdding == old(isAdding)
    {
      inputValue := value;
    }

    /**
     * `handleAddTag`: `added` is what is passed to `onAddTag`. On success the
     * input is cleared and closed; on rejection nothing changes.
     */
    method HandleAddTag(tags: seq<string>) returns (added: Option<string>)
      modifies this
      ensures added == TagToAdd(old(inputValue), tags, maxTags)
      ensures added.Some? ==> inputValue == "" && !isAdding
      ensures added.None? ==> inputValue == old(inputValue) && isAdding == old(isAdding)
    {
      var tag := Trim(inputValue);
      if tag != "" && tag !in tags && |tags| < maxTags {
        added := Some(tag);
        inputValue := "";
        isAdding := false;
      } else {
        added := None;
      }
    }

    /** `handleKeyPress`: Enter tries to add; Escape clears and closes; other keys do nothing. */
    method HandleKeyPress(key: string, tags: seq<string>) returns (added: Option<string>)
      modifies this
      ensures key == "Enter" ==> added == TagToAdd(old(inputValue), tags, maxTags)
      ensures key == "Enter" && added.Some? ==> inputValue == "" && !isAdding
      ensures key == "Enter" && added.None? ==> inputValue == old(inputValue) && isAdding == old(isAdding)
      ensures key == "Escape" ==> added.None? && inputValue == "" && !isAdding
      ensures key != "Enter" && key != "Escape" ==> added.None? && inputValue == old(inputValue) && isAdding == old(isAdding)
    {
      if key == "Enter" {
        added := HandleAddTag(tags);
      } else if key == "Escape" {
        added := None;
        inputValue := "";
        isAdding := false;
      } else {
        added := None;
      }
    }

    /**
     * The input's `onBlur`: a non-blank entry goes through `handleAddTag` (and
     * the input stays open if the guard rejects it); a blank one just closes
     * the input, leaving its text as it was.
     */
    method Blur(tags: seq<string>) returns (added: Option<string>)
      modifies this
      ensures IsBlank(old(inputValue)) ==> added.None? && !isAdding && inputValue == old(inputValue)
      ensures !IsBlank(old(inputValue)) ==> added == TagToAdd(old(inputValue), tags, maxTags)
      ensures !IsBlank(old(inputValue)) && added.Some? ==> inputValue == "" && !isAdding
      ensures !IsBlank(old(inputValue)) && added.None? ==> inputValue == old(inputValue) && isAdding == old(isAdding)
    {
      if Trim(inputValue) != "" {
        added := HandleAddTag(tags);
      } else {
        added := None;
        isAdding := false;
      }
    }
  }

  // ---------------------------------------------------------------------------
  // Colours and visibility
  // ---------------------------------------------------------------------------

  /** One entry of the palette: background, text and border colour. */
  datatype TagColor = TagColor(bg: string, color: string, border: string)

  /** Blue, green, amber, purple and red. */
  const TagColors: seq<TagColor> := [
    TagColor("rgb(59 130 246 / 0.1)", "rgb(59 130 246)", "rgb(59 130 246 / 0.3)"),
    TagColor("rgb(34 197 94 / 0.1)", "rgb(34 197 94)", "rgb(34 197 94 / 0.3)"),
    TagColor("rgb(245 158 11 / 0.1)", "rgb(245 158 11)", "rgb(245 158 11 / 0.3)"),
    TagColor("rgb(168 85 247 / 0.1)", "rgb(168 85 247)", "rgb(168 85 247 / 0.3)"),
    TagColor("rgb(239 68 68 / 0.1)", "rgb(239 68 68)", "rgb(239 68 68 / 0.3)")
  ]

  /** `getTagColor(index)`: the palette entry for the tag at `index`, cycling through the palette. */
  function GetTagColor(index: nat): (c: TagColor)
    ensures c in TagColors
  {
    TagColors[index % |TagColors|]
  }

  /** The colours repeat every five tags, and any five consecutive tags get five different colours. */
  lemma TagColorsCycle(i: nat, j: nat)
    ensures GetTagColor(i + 5) == GetTagColor(i)
    ensures i < j < i + 5 ==> GetTagColor(i) != GetTagColor(j)
  {
    assert (i + 5) % 5 == i % 5;
    if i < j < i + 5 {
      assert i % 5 != j % 5;
    }
  }

  /** Whether the add button is shown: the input is closed and there is room for a tag. */
  predicate ShowAddButton(isAdding: bool, tags: seq<string>, maxTags: int): (b: bool)
    ensures b ==> !isAdding && |tags| + 1 <= maxTags
    ensures !isAdding && |tags| < maxTags ==> b
  {
    !isAdding && |tags| < maxTags
  }

  /** Whether the limit notice is shown. */
  predicate ShowLimitNotice(tags: seq<string>, maxTags: int): (b: bool)
    ensures b <==> !(|tags| < maxTags)
    ensures maxTags <= 0 ==> b
  {
    |tags| >= maxTags
  }

  /**
   * The add button and the limit notice are never shown together; with the
   * input closed exactly one of them is. When the notice is shown the guard
   * rejects every entry.
   */
  lemma ButtonAndNoticeExclusive(isAdding: bool, tags: seq<string>, maxTags: int, input: string)
    ensures !(ShowAddButton(isAdding, tags, maxTags) && ShowLimitNotice(tags, maxTags))
    ensures !isAdding ==> ShowAddButton(isAdding, tags, maxTags) != ShowLimitNotice(tags, maxTags)
    ensures ShowLimitNotice(tags, maxTags) ==> TagToAdd(input, tags, maxTags).None?
  {
  }
}
