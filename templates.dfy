/** The content-templates page of the client: a list of templates, a draft
    being entered and whether the form is open. The id of a new template,
    `Date.now()` in the page, is a parameter. */
module Templates {
  import opened Lists

  datatype Template = Template(id: int, name: string, description: string, content: string)

  /** The three fields of the form. */
  datatype Draft = Draft(name: string, description: string, content: string)

  datatype DraftField = NameField | DescriptionField | ContentField

  const EmptyDraft := Draft("", "", "")

  /** How many characters of its content a template card shows. */
  const PreviewLength := 100

  /** `newTemplate.name && newTemplate.description && newTemplate.content`:
      each field non-empty; nothing is trimmed. */
  predicate DraftComplete(d: Draft)
  {
    d.name != "" && d.description != "" && d.content != ""
  }

  /** The predicate `template => template.id !== id`. */
  function HasOtherId(id: int): Template -> bool
  {
    (t: Template) => t.id != id
  }

  /** `templates.filter(template => template.id !== id)`. */
  function WithoutId(templates: seq<Template>, id: int): (r: seq<Template>)
  {
    Filter(templates, HasOtherId(id))
  }

  /** `template.content.substring(0, 100)` followed by `...`. */
  function Preview(content: string): (p: string)
    ensures 3 <= |p| <= PreviewLength + 3 && |p| - 3 <= |content|
    ensures p[..|p| - 3] == content[..|p| - 3] && p[|p| - 3..] == "..."
    ensures |content| <= PreviewLength ==> p == content + "..."
    ensures |content| > PreviewLength ==> |p| == PreviewLength + 3
  {
    Take(content, PreviewLength) + "..."
  }

  function Edited(d: Draft, field: DraftField, value: string): (r: Draft)
  {
    match field
    case NameField => d.(name := value)
    case DescriptionField => d.(description := value)
    case ContentField => d.(content := value)
  }

  /** The three sample templates the page starts with. */
  const InitialTemplates: seq<Template> := [
    Template(1, "Product Launch", "Announce a new product",
      "Exciting news! We're thrilled to announce the launch of our latest product, [Product Name]. [Brief description]. Visit our website to learn more and be among the first to experience it!"),
    Template(2, "Weekly Tip", "Share a helpful tip",
      "Here's your #WeeklyTip: [Insert tip here]. How do you implement this in your daily routine? Share your thoughts in the comments!"),
    Template(3, "Customer Spotlight", "Highlight a customer success story",
      "Customer Spotlight: [Customer Name] achieved [specific result] using our [product/service]. Learn how they did it: [link] #CustomerSuccess")]

  class TemplatesPage {
    var templates: seq<Template>
    var newTemplate: Draft
    var isAdding: bool

    /** The page's initial state: three sample templates, an empty draft and
        the form closed. */
    constructor()
      ensures templates == InitialTemplates
      ensures newTemplate == EmptyDraft && !isAdding
    {
      templates := InitialTemplates;
      newTemplate := EmptyDraft;
      isAdding := false;
    }

    /** The "Add Template" button. */
    method OpenForm()
      modifies this
      ensures isAdding
      ensures templates == old(templates) && newTemplate == old(newTemplate)
    {
      isAdding := true;
    }

    /** The "Cancel" button: the form closes and the draft is kept. */
    method CancelForm()
      modifies this
      ensures !isAdding
      ensures templates == old(templates) && newTemplate == old(newTemplate)
    {
      isAdding := false;
    }

    /** Typing into one field of the form. */
    method EditDraft(field: DraftField, value: string)
      modifies this
      ensures newTemplate == Edited(old(newTemplate), field, value)
      ensures templates == old(templates) && isAdding == old(isAdding)
    {
      newTemplate := Edited(newTemplate, field, value);
    }

    /** `handleAddTemplate`: a complete draft is appended as a template with
        the given id, the draft is cleared and the form closed; an
        incomplete draft changes nothing. */
    method AddTemplate(id: int)
      modifies this
      ensures DraftComplete(old(newTemplate)) ==>
        && templates == old(templates) + [Template(id, old(newTemplate).name, old(newTemplate).description, old(newTemplate).content)]
        && newTemplate == EmptyDraft && !isAdding
      ensures !DraftComplete(old(newTemplate)) ==>
        templates == old(templates) && newTemplate == old(newTemplate) && isAdding == old(isAdding)
    {
      if DraftComplete(newTemplate) {
        templates := templates + [Template(id, newTemplate.name, newTemplate.description, newTemplate.content)];
        newTemplate := EmptyDraft;
        isAdding := false;
      }
    }

    /** `handleDeleteTemplate`. */
    method DeleteTemplate(id: int)
      modifies this
      ensures templates == WithoutId(old(templates), id)
      ensures newTemplate == old(newTemplate) && isAdding == old(isAdding)
    {
      templates := WithoutId(templates, id);
    }
  }

  /** The form checks presence only: fields of spaces are accepted, empty
      fields are not. */
  lemma WhitespaceDraftAccepted()
    ensures DraftComplete(Draft(" ", " ", " "))
    ensures !DraftComplete(Draft("", " ", " ")) && !DraftComplete(Draft(" ", "", " ")) && !DraftComplete(Draft(" ", " ", ""))
  {
  }

  /** Delete removes every template with the id, keeps every other one, and
      keeps their order. */
  lemma WithoutIdProperties(templates: seq<Template>, id: int)
    ensures forall t :: t in WithoutId(templates, id) <==> t in templates && t.id != id
    ensures IsSubsequence(WithoutId(templates, id), templates)
    ensures (forall i :: 0 <= i < |templates| ==> templates[i].id != id) ==> WithoutId(templates, id) == templates
  {
    forall t ensures t in WithoutId(templates, id) <==> t in templates && t.id != id {
      FilterMembership(templates, HasOtherId(id), t);
    }
    FilterIsSubsequence(templates, HasOtherId(id));
    if forall i :: 0 <= i < |templates| ==> templates[i].id != id {
      FilterAllKept(templates, HasOtherId(id));
    }
  }

  /** Deleting an id a second time changes nothing. */
  lemma DeleteTwice(templates: seq<Template>, id: int)
    ensures WithoutId(WithoutId(templates, id), id) == WithoutId(templates, id)
  {
    FilterIdempotent(templates, HasOtherId(id));
  }

  /** Typing into a field sets that field and leaves the other two. */
  lemma EditedProperties(d: Draft, field: DraftField, value: string)
    ensures field == NameField ==> Edited(d, field, value) == Draft(value, d.description, d.content)
    ensures field == DescriptionField ==> Edited(d, field, value) == Draft(d.name, value, d.content)
    ensures field == ContentField ==> Edited(d, field, value) == Draft(d.name, d.description, value)
  {
  }
}
