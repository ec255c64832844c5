/** The tool editor of the admin page (client/src/pages/AdminPage.tsx): the
    form state, the helpers that edit its lists, the slug input transform,
    and the payload the form submits to the admin API. */
module AdminForm {
  import opened Wrappers
  import opened Text
  import opened Schema
  import opened Routes
  import opened Lists

  /** One row of the form's download-button list. */
  datatype FormButton = FormButton(caption: string, url: string, order: int)

  const BlankButton: FormButton := FormButton("", "", 0)

  // ------------------------------------------------------ normalisation

  /** `s.trim() !== ''` (and, for a string used as a condition,
      `s.trim()` being truthy). */
  predicate Filled(s: string) {
    Trim(s) != []
  }

  /** A field counts as filled exactly when it has a character that is not
      white space. */
  lemma FilledIffNotBlank(s: string)
    ensures Filled(s) <==> !Blank(s)
  {
    TrimEmptyIffBlank(s);
  }

  /** `xs.filter((x) => x.trim() !== '')`: the filled entries, untrimmed and
      in order. */
  function KeepFilled(xs: seq<string>): (r: seq<string>)
    ensures |r| <= |xs|
    ensures forall i :: 0 <= i < |r| ==> Filled(r[i])
  {
    Keep(xs, Filled)
  }

  /** A button is kept when both its label and its URL are filled. */
  predicate ButtonFilled(b: FormButton) {
    Filled(b.caption) && Filled(b.url)
  }

  function KeepFilledButtons(bs: seq<FormButton>): (r: seq<FormButton>)
    ensures |r| <= |bs|
    ensures forall i :: 0 <= i < |r| ==> ButtonFilled(r[i])
  {
    Keep(bs, ButtonFilled)
  }

  /** An image or tag is submitted exactly when it is filled, a button
      exactly when its label and URL both are; order is kept, and
      normalising twice changes nothing. */
  lemma KeepFilledSpec(xs: seq<string>, x: string, ys: seq<string>, bs: seq<FormButton>, b: FormButton)
    ensures x in KeepFilled(xs) <==> x in xs && Filled(x)
    ensures KeepFilled(xs + ys) == KeepFilled(xs) + KeepFilled(ys)
    ensures KeepFilled(KeepFilled(xs)) == KeepFilled(xs)
    ensures b in KeepFilledButtons(bs) <==> b in bs && ButtonFilled(b)
  {
    KeepMembers(xs, Filled, x);
    KeepConcat(xs, ys, Filled);
    KeepIdempotent(xs, Filled);
    KeepMembers(bs, ButtonFilled, b);
  }

  /** The buttons sent with the payload: the filled ones, renumbered by
      their position. */
  function SubmittedButtons(bs: seq<FormButton>): (r: seq<ButtonPayload>)
    ensures |r| == |KeepFilledButtons(bs)|
    ensures forall k :: 0 <= k < |r| ==>
              && r[k].order == Some(k)
              && r[k].caption == KeepFilledButtons(bs)[k].caption
              && r[k].url == KeepFilledButtons(bs)[k].url
  {
    var kept := KeepFilledButtons(bs);
    seq(|kept|, k requires 0 <= k < |kept| => ButtonPayload(kept[k].caption, kept[k].url, Some(k)))
  }

  /** The server stores the submitted buttons with orders 0, 1, 2, ... in
      list order. */
  lemma SubmittedButtonsStoredInOrder(toolId: Id, bs: seq<FormButton>, firstId: nat)
    ensures forall k :: 0 <= k < |MakeButtons(toolId, SubmittedButtons(bs), firstId)|
                        ==> MakeButtons(toolId, SubmittedButtons(bs), firstId)[k].order == k
  {
  }

  /** `url || null`: an empty URL field is sent as `null`. */
  function NullIfEmpty(s: string): (r: UrlField)
    ensures r == Null <==> s == ""
    ensures r != Null ==> r == Given(s)
  {
    if s == "" then Null else Given(s)
  }

  // --------------------------------------------------------------- slug

  /** Each maximal run of white space becomes one `-`
      (`replace(/\s+/g, '-')`). */
  function CollapseSpaces(s: string): (r: string)
    ensures |r| <= |s|
    decreases |s|
  {
    if s == [] then []
    else if IsSpace(s[0]) then "-" + CollapseSpaces(TrimStart(s[1..]))
    else [s[0]] + CollapseSpaces(s[1..])
  }

  predicate NoSpace(s: string) {
    forall i :: 0 <= i < |s| ==> !IsSpace(s[i])
  }

  /** Trimming a blank run in front of a text that starts with no white
      space leaves that text. */
  lemma {:induction false} TrimStartBlank(ws: string, w: string)
    requires Blank(ws)
    requires w == [] || !IsSpace(w[0])
    ensures TrimStart(ws + w) == w
    decreases |ws|
  {
    if ws == [] {
      assert ws + w == w;
    } else {
      assert (ws + w)[1..] == ws[1..] + w;
      TrimStartBlank(ws[1..], w);
    }
  }

  /** A word, one maximal run of white space and the rest: the run becomes
      exactly one `-` and the word is kept as it is. */
  lemma {:induction false} CollapseSpacesRun(word: string, ws: string, rest: string)
    requires NoSpace(word)
    requires ws != [] && Blank(ws)
    requires rest == [] || !IsSpace(rest[0])
    ensures CollapseSpaces(word + ws + rest) == word + "-" + CollapseSpaces(rest)
    decreases |word|
  {
    var s := word + ws + rest;
    if word == [] {
      assert s == ws + rest;
      assert s[1..] == ws[1..] + rest;
      TrimStartBlank(ws[1..], rest);
    } else {
      assert s[0] == word[0];
      assert s[1..] == word[1..] + ws + rest;
      CollapseSpacesRun(word[1..], ws, rest);
      assert word + "-" + CollapseSpaces(rest) == [word[0]] + (word[1..] + "-" + CollapseSpaces(rest));
    }
  }

  /** The slug input's transform: lower case, then runs of white space to
      `-`. */
  function SlugTransform(s: string): string {
    CollapseSpaces(Lower(s))
  }

  /** Collapsing leaves no white space and keeps a lower-case text lower
      case. */
  lemma {:induction false} CollapseSpacesShape(s: string)
    ensures NoSpace(CollapseSpaces(s))
    ensures IsLower(s) ==> IsLower(CollapseSpaces(s))
    decreases |s|
  {
    if s != [] {
      var r := CollapseSpaces(s);
      if IsSpace(s[0]) {
        var rest := TrimStart(s[1..]);
        CollapseSpacesShape(rest);
        assert IsLower(s) ==> IsLower(rest) by {
          if IsLower(s) {
            forall i | 0 <= i < |rest| ensures !('A' <= rest[i] <= 'Z') {
              assert rest[i] == s[1..][|s[1..]| - |rest| + i];
            }
          }
        }
        assert r == "-" + CollapseSpaces(rest);
        forall i | 0 < i < |r| ensures r[i] == CollapseSpaces(rest)[i - 1] { }
      } else {
        CollapseSpacesShape(s[1..]);
        assert r == [s[0]] + CollapseSpaces(s[1..]);
        forall i | 0 < i < |r| ensures r[i] == CollapseSpaces(s[1..])[i - 1] { }
      }
    }
  }

  /** A text without white space is its own collapse. */
  lemma {:induction false} CollapseSpacesNoSpace(s: string)
    requires NoSpace(s)
    ensures CollapseSpaces(s) == s
  {
    if s != [] {
      assert !IsSpace(s[0]);
      CollapseSpacesNoSpace(s[1..]);
      assert s == [s[0]] + s[1..];
    }
  }

  lemma LowerOfLower(s: string)
    requires IsLower(s)
    ensures Lower(s) == s
  {
  }

  /** A transformed slug is lower case and has no white space, and
      transforming it again leaves it as it is. */
  lemma SlugTransformIdempotent(s: string)
    ensures NoSpace(SlugTransform(s)) && IsLower(SlugTransform(s))
    ensures SlugTransform(SlugTransform(s)) == SlugTransform(s)
  {
    var t := SlugTransform(s);
    CollapseSpacesShape(Lower(s));
    LowerOfLower(t);
    CollapseSpacesNoSpace(t);
  }

  // ------------------------------------------------------- list helpers

  /** `xs.filter((_, i) => i !== index)`: an index outside the list removes
      nothing. */
  function RemoveAt<T>(xs: seq<T>, index: int): (r: seq<T>)
    ensures 0 <= index < |xs| ==> |r| == |xs| - 1 && r == xs[..index] + xs[index + 1..]
    ensures !(0 <= index < |xs|) ==> r == xs
  {
    if 0 <= index < |xs| then xs[..index] + xs[index + 1..] else xs
  }

  /** Removing is offered only while a list has more than one entry, so a
      list never becomes empty that way. */
  lemma RemoveKeepsNonEmpty<T>(xs: seq<T>, index: int)
    requires |xs| > 1
    ensures |RemoveAt(xs, index)| >= 1
  {
  }

  /** Which column of a button row an input edits. */
  datatype ButtonPart = CaptionPart | UrlPart

  function SetPart(b: FormButton, part: ButtonPart, value: string): (r: FormButton)
    ensures r.order == b.order
    ensures part == CaptionPart ==> r.caption == value && r.url == b.url
    ensures part == UrlPart ==> r.url == value && r.caption == b.caption
  {
    match part
    case CaptionPart => b.(caption := value)
    case UrlPart => b.(url := value)
  }

  // ---------------------------------------------------------- the form

  /** A stored tool's buttons as editable rows: label, URL and order
      copied one by one. */
  function FormButtons(bs: seq<DownloadButton>): (r: seq<FormButton>)
    ensures |r| == |bs|
    ensures forall k :: 0 <= k < |bs| ==> r[k] == FormButton(bs[k].caption, bs[k].url, bs[k].order)
  {
    seq(|bs|, k requires 0 <= k < |bs| => FormButton(bs[k].caption, bs[k].url, bs[k].order))
  }

  /** What `handleSubmit` sends: a create, or an update of the tool being
      edited. */
  datatype SubmitRequest = CreateRequest(payload: ToolPayload) | UpdateRequest(id: Id, payload: ToolPayload)

  /** The form's `useState` fields. `editing` is the id of the tool being
      edited (`editingTool`). */
  /** Every field of the admin form at one moment. */
  datatype FormState = FormState(title: string, slug: string, shortDesc: string,
                                 descriptionMarkdown: string, images: seq<string>,
                                 tags: seq<string>, donationUrl: string, telegramUrl: string,
                                 buttons: seq<FormButton>, editing: Option<Id>, showModal: bool)

  /** The form as `resetForm` leaves it, with the dialog closed. */
  const BlankForm := FormState("", "", "", "", [""], [""], "", "", [BlankButton], None, false)

  class ToolForm {
    var title: string
    var slug: string
    var shortDesc: string
    var descriptionMarkdown: string
    var images: seq<string>
    var tags: seq<string>
    var donationUrl: string
    var telegramUrl: string
    var buttons: seq<FormButton>
    var editing: Option<Id>
    var showModal: bool

    /** Every editable list shows at least one row. */
    ghost predicate ListsNonEmpty()
      reads this
    {
      |images| >= 1 && |tags| >= 1 && |buttons| >= 1
    }

    function State(): FormState
      reads this
    {
      FormState(title, slug, shortDesc, descriptionMarkdown, images, tags,
                donationUrl, telegramUrl, buttons, editing, showModal)
    }

    /** The fields as `resetForm` leaves them, with the dialog closed. */
    constructor ()
      ensures title == "" && slug == "" && shortDesc == "" && descriptionMarkdown == ""
      ensures images == [""] && tags == [""] && buttons == [BlankButton]
      ensures donationUrl == "" && telegramUrl == "" && editing == None && !showModal
      ensures State() == BlankForm
      ensures ListsNonEmpty()
    {
      title, slug, shortDesc, descriptionMarkdown := "", "", "", "";
      images, tags, buttons := [""], [""], [BlankButton];
      donationUrl, telegramUrl := "", "";
      editing, showModal := None, false;
    }

    /** `resetForm`: blank fields, one blank row per list, no tool being
        edited. */
    method ResetForm()
      modifies this
      ensures title == "" && slug == "" && shortDesc == "" && descriptionMarkdown == ""
      ensures images == [""] && tags == [""] && buttons == [BlankButton]
      ensures donationUrl == "" && telegramUrl == "" && editing == None
      ensures showModal == old(showModal)
      ensures State() == BlankForm.(showModal := old(showModal))
      ensures ListsNonEmpty()
    {
      title, slug, shortDesc, descriptionMarkdown := "", "", "", "";
      images, tags, buttons := [""], [""], [BlankButton];
      donationUrl, telegramUrl := "", "";
      editing := None;
    }

    /** The "Add Tool" button: a blank form in an open dialog. */
    method OpenCreateModal()
      modifies this
      ensures title == "" && slug == "" && images == [""] && tags == [""] && buttons == [BlankButton]
      ensures editing == None && showModal
      ensures State() == BlankForm.(showModal := true)
      ensures ListsNonEmpty()
    {
      ResetForm();
      showModal := true;
    }

    /** `openEditModal(tool)`: the tool's fields, with one blank row for an
        empty list and `''` for a missing URL. */
    method OpenEditModal(tool: ToolWithButtons)
      modifies this
      ensures editing == Some(tool.tool.id) && showModal
      ensures title == tool.tool.title && slug == tool.tool.slug
      ensures shortDesc == tool.tool.short_desc && descriptionMarkdown == tool.tool.description_markdown
      ensures images == if |tool.tool.images| > 0 then tool.tool.images else [""]
      ensures tags == if |tool.tool.tags| > 0 then tool.tool.tags else [""]
      ensures donationUrl == tool.tool.donation_url.GetOr("")
      ensures telegramUrl == tool.tool.telegram_url.GetOr("")
      ensures buttons == if |tool.download_buttons| > 0 then FormButtons(tool.download_buttons) else [BlankButton]
      ensures ListsNonEmpty()
    {
      var t := tool.tool;
      editing := Some(t.id);
      title, slug, shortDesc, descriptionMarkdown := t.title, t.slug, t.short_desc, t.description_markdown;
      images := if |t.images| > 0 then t.images else [""];
      tags := if |t.tags| > 0 then t.tags else [""];
      donationUrl := t.donation_url.GetOr("");
      telegramUrl := t.telegram_url.GetOr("");
      buttons := if |tool.download_buttons| > 0 then FormButtons(tool.download_buttons) else [BlankButton];
      showModal := true;
    }

    /** A save succeeded: the form is reset and the dialog closes. */
    method OnSaved()
      modifies this
      ensures editing == None && !showModal && images == [""] && tags == [""] && buttons == [BlankButton]
      ensures title == "" && slug == ""
      ensures State() == BlankForm
    {
      ResetForm();
      showModal := false;
    }

    /** The slug input's `onChange`. */
    method SetSlug(input: string)
      modifies this
      ensures slug == SlugTransform(input)
      ensures NoSpace(slug) && IsLower(slug)
      ensures State() == old(State()).(slug := SlugTransform(input))
    {
      SlugTransformIdempotent(input);
      slug := SlugTransform(input);
    }

    method AddImage()
      modifies this
      ensures images == old(images) + [""]
      ensures State() == old(State()).(images := old(images) + [""])
    {
      images := images + [""];
    }

    method RemoveImage(index: int)
      modifies this
      ensures images == RemoveAt(old(images), index)
      ensures State() == old(State()).(images := RemoveAt(old(images), index))
    {
      images := RemoveAt(images, index);
    }

    /** `updateImage`: the copy of the list gets `value` at `index`. */
    method UpdateImage(index: nat, value: string)
      requires index < |images|
      modifies this
      ensures |images| == |old(images)| && images[index] == value
      ensures forall k :: 0 <= k < |images| && k != index ==> images[k] == old(images)[k]
      ensures State() == old(State()).(images := old(images)[index := value])
    {
      images := images[index := value];
    }

    method AddTag()
      modifies this
      ensures tags == old(tags) + [""]
      ensures State() == old(State()).(tags := old(tags) + [""])
    {
      tags := tags + [""];
    }

    method RemoveTag(index: int)
      modifies this
      ensures tags == RemoveAt(old(tags), index)
      ensures State() == old(State()).(tags := RemoveAt(old(tags), index))
    {
      tags := RemoveAt(tags, index);
    }

    method UpdateTag(index: nat, value: string)
      requires index < |tags|
      modifies this
      ensures |tags| == |old(tags)| && tags[index] == value
      ensures forall k :: 0 <= k < |tags| && k != index ==> tags[k] == old(tags)[k]
      ensures State() == old(State()).(tags := old(tags)[index := value])
    {
      tags := tags[index := value];
    }

    /** `addDownloadButton`: a blank row whose order is the old length. */
    method AddDownloadButton()
      modifies this
      ensures buttons == old(buttons) + [FormButton("", "", |old(buttons)|)]
      ensures State() == old(State()).(buttons := old(buttons) + [FormButton("", "", |old(buttons)|)])
    {
      buttons := buttons + [FormButton("", "", |buttons|)];
    }

    method RemoveDownloadButton(index: int)
      modifies this
      ensures buttons == RemoveAt(old(buttons), index)
      ensures State() == old(State()).(buttons := RemoveAt(old(buttons), index))
    {
      buttons := RemoveAt(buttons, index);
    }

    /** `updateDownloadButton(index, field, value)`: only that row's label
        or URL changes. */
    method UpdateDownloadButton(index: nat, part: ButtonPart, value: string)
      requires index < |buttons|
      modifies this
      ensures |buttons| == |old(buttons)| && buttons[index] == SetPart(old(buttons)[index], part, value)
      ensures forall k :: 0 <= k < |buttons| && k != index ==> buttons[k] == old(buttons)[k]
      ensures State() == old(State()).(buttons := old(buttons)[index := SetPart(old(buttons)[index], part, value)])
    {
      buttons := buttons[index := SetPart(buttons[index], part, value)];
    }

    /** The body `handleSubmit` builds from the current fields. */
    function Payload(): (r: ToolPayload)
      reads this
      ensures r.fields.images == Some(KeepFilled(images)) && r.fields.tags == Some(KeepFilled(tags))
      ensures r.fields.donation_url == NullIfEmpty(donationUrl)
      ensures r.fields.telegram_url == NullIfEmpty(telegramUrl)
      ensures r.downloadButtons == Some(SubmittedButtons(buttons))
      ensures r.fields.title == title && r.fields.slug == slug
      ensures r.fields.short_desc == shortDesc && r.fields.description_markdown == descriptionMarkdown
    {
      ToolPayload(ToolInput(title, slug, shortDesc, descriptionMarkdown, Some(KeepFilled(images)),
                            Some(KeepFilled(tags)), NullIfEmpty(donationUrl), NullIfEmpty(telegramUrl)),
                  Some(SubmittedButtons(buttons)))
    }

    /** `handleSubmit`: an update while a tool is being edited, a create
        otherwise. */
    method Submit() returns (req: SubmitRequest)
      ensures editing.Some? <==> req.UpdateRequest?
      ensures req.UpdateRequest? ==> req.id == editing.value
      ensures req.payload == Payload()
    {
      if editing.Some? {
        req := UpdateRequest(editing.value, Payload());
      } else {
        req := CreateRequest(Payload());
      }
    }
  }
}
