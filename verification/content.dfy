/**
 * `loadContent` of script.js, after the data document has been fetched and
 * parsed. The page title and the text fields are set, and one child is
 * appended to each list mount point per input entry, in input order. Item
 * markup is built from fixed templates with field values inserted verbatim:
 * nothing is escaped.
 */
module Content {
  import opened Wrappers

  datatype CvItem = CvItem(role: string, org: string, period: string, details: string)
  datatype CvSection = CvSection(category: string, items: seq<CvItem>)
  datatype Project = Project(title: string, description: string, link: string)

  /** The parsed data document. `contact` lists the entries of the `contact` object in property order. */
  datatype Portfolio = Portfolio(
    name: string, title: string, summary: string, about: string,
    cv: seq<CvSection>, projects: seq<Project>, skills: seq<string>,
    contact: seq<(string, string)>)

  /** A created element: its tag, its `className`, and what was assigned to it. */
  datatype Node = Node(tag: string, className: string, content: Body)

  /** `textContent`, `innerHTML`, or appended child elements. */
  datatype Body = Text(text: string) | Html(markup: string) | Children(nodes: seq<Node>)

  /** `items.forEach(x => list.appendChild(f(x)))`, as the children it appends. */
  function MapSeq<T, U>(f: T -> U, s: seq<T>): seq<U>
    decreases |s|
  {
    if s == [] then [] else [f(s[0])] + MapSeq(f, s[1..])
  }

  /** Exactly one output per input entry, in input order. */
  lemma {:induction false} OneBlockPerItem<T, U>(f: T -> U, s: seq<T>)
    ensures |MapSeq(f, s)| == |s|
    ensures forall k :: 0 <= k < |s| ==> MapSeq(f, s)[k] == f(s[k])
    decreases |s|
  {
    if s != [] {
      OneBlockPerItem(f, s[1..]);
    }
  }

  /** Appending one more entry appends one more block. */
  lemma MapSeqSnoc<T, U>(f: T -> U, s: seq<T>, x: T)
    ensures MapSeq(f, s + [x]) == MapSeq(f, s) + [f(x)]
  {
    OneBlockPerItem(f, s);
    OneBlockPerItem(f, s + [x]);
  }

  /** One more `forEach` iteration: the list grows by the next entry's block. */
  lemma AppendStep<T, U>(f: T -> U, before: seq<U>, s: seq<T>, k: nat)
    requires k < |s|
    ensures before + MapSeq(f, s[..k]) + [f(s[k])] == before + MapSeq(f, s[..k + 1])
  {
    assert s[..k + 1] == s[..k] + [s[k]];
    MapSeqSnoc(f, s[..k], s[k]);
  }

  /** `document.title`. */
  function DocumentTitle(name: string, title: string): (r: string)
    ensures |r| == |name| + 3 + |title|
    ensures r[..|name|] == name && r[|name|..|name| + 3] == " - " && r[|name| + 3..] == title
  {
    name + " - " + title
  }

  /** `toUpperCase` of a single character, for ASCII letters. */
  function ToUpper(c: char): (u: char)
    ensures 'a' <= c <= 'z' ==> 'A' <= u <= 'Z' && u as int == c as int - 32
    ensures !('a' <= c <= 'z') ==> u == c
  {
    if 'a' <= c <= 'z' then (c as int - 32) as char else c
  }

  /** `key.charAt(0).toUpperCase() + key.slice(1)`. */
  function Label(key: string): (r: string)
    ensures |r| == |key|
    ensures key != "" ==> r[0] == ToUpper(key[0]) && r[1..] == key[1..]
  {
    if key == "" then "" else [ToUpper(key[0])] + key[1..]
  }

  /** The fixed fragments of the markup templates. */
  const AnchorOpen: string := "<a href=\""
  const Quote: string := "\""
  const TargetOpen: string := " target=\""
  const ClassOpen: string := " class=\""
  const TagEnd: string := "\">"
  const AnchorClose: string := "</a>"
  const Dash: string := " \U{2013} "
  const ProjectAnchorOpen: string :=
    "<a class=\"text-blue-600 dark:text-blue-400 underline font-medium\" target=\"_blank\" href=\""
  const SmallParaOpen: string := "<p class=\"text-sm\">"
  const ParaClose: string := "</p>"

  /** The attributes and text of a generated `a` element. */
  datatype Anchor = Anchor(href: string, target: Option<string>, className: string, text: string)

  function TargetAttribute(target: Option<string>): string {
    match target
    case Some(t) => TargetOpen + t + Quote
    case None => ""
  }

  /** `<a href="…"[ target="…"] class="…">…</a>`. */
  function AnchorMarkup(a: Anchor): string {
    AnchorOpen + a.href + Quote + TargetAttribute(a.target) + ClassOpen + a.className + TagEnd + a.text + AnchorClose
  }

  /** The link chosen for one contact entry. */
  function ContactAnchor(key: string, value: string): (a: Anchor)
    ensures a.className == "underline"
    ensures key == "email" ==> a.href == "mailto:" + value && a.target == None && a.text == value
    ensures key != "email" ==> a.href == value && a.target == Some("_blank") && a.text == Label(key)
  {
    if key == "email" then Anchor("mailto:" + value, None, "underline", value)
    else Anchor(value, Some("_blank"), "underline", Label(key))
  }

  /** The `innerHTML` of one contact entry's list item. */
  function ContactMarkup(key: string, value: string): string {
    AnchorMarkup(ContactAnchor(key, value))
  }

  /** The `innerHTML` of one project's block: a link opening in a new tab, then the description. */
  function ProjectMarkup(p: Project): string {
    ProjectAnchorOpen + p.link + TagEnd + p.title + AnchorClose + SmallParaOpen + p.description + ParaClose
  }

  /** The `innerHTML` of one CV item's block. */
  function CvItemMarkup(item: CvItem): string {
    "<p class=\"font-semibold\">" + item.role + "</p>"
      + "<p class=\"text-sm text-gray-600 dark:text-gray-400\">" + item.org + Dash + item.period + "</p>"
      + "<p class=\"mt-1 text-sm\">" + item.details + "</p>"
  }

  function ItemNode(item: CvItem): Node {
    Node("div", "mt-2", Html(CvItemMarkup(item)))
  }

  function HeadingNode(category: string): Node {
    Node("h4", "text-xl font-medium", Text(category))
  }

  /** A CV section: its heading, then one block per item. */
  function SectionNode(section: CvSection): Node {
    Node("div", "", Children([HeadingNode(section.category)] + MapSeq(ItemNode, section.items)))
  }

  function ProjectNode(p: Project): Node {
    Node("div", "", Html(ProjectMarkup(p)))
  }

  function SkillNode(skill: string): Node {
    Node("li", "", Text(skill))
  }

  function ContactNode(entry: (string, string)): Node {
    Node("li", "", Html(ContactMarkup(entry.0, entry.1)))
  }

  /** The body of the outer `data.cv.forEach`: build one section element. */
  method BuildSection(section: CvSection) returns (sectionDiv: Node)
    ensures sectionDiv == SectionNode(section)
  {
    var children := [HeadingNode(section.category)];
    var k := 0;
    while k < |section.items|
      invariant 0 <= k <= |section.items|
      invariant children == [HeadingNode(section.category)] + MapSeq(ItemNode, section.items[..k])
    {
      var item := section.items[k];
      AppendStep(ItemNode, [HeadingNode(section.category)], section.items, k);
      var itemDiv := ItemNode(item);
      children := children + [itemDiv];
      k := k + 1;
    }
    assert section.items[..k] == section.items;
    sectionDiv := Node("div", "", Children(children));
  }

  /** The page's text fields and list mount points. */
  class Page {
    var title: string
    var nameText: string
    var titleText: string
    var summaryText: string
    var aboutText: string
    var cvList: seq<Node>
    var projectsList: seq<Node>
    var skillsList: seq<Node>
    var contactList: seq<Node>

    /** The page as served, with whatever children its lists already hold. */
    constructor (cv: seq<Node>, projects: seq<Node>, skills: seq<Node>, contact: seq<Node>)
      ensures cvList == cv && projectsList == projects && skillsList == skills && contactList == contact
    {
      title, nameText, titleText, summaryText, aboutText := "", "", "", "", "";
      cvList, projectsList, skillsList, contactList := cv, projects, skills, contact;
    }

    /** `loadContent`, from the parsed document on. */
    method LoadContent(data: Portfolio)
      modifies this
      ensures title == DocumentTitle(data.name, data.title)
      ensures nameText == data.name && titleText == data.title
      ensures summaryText == data.summary && aboutText == data.about
      ensures cvList == old(cvList) + MapSeq(SectionNode, data.cv)
      ensures projectsList == old(projectsList) + MapSeq(ProjectNode, data.projects)
      ensures skillsList == old(skillsList) + MapSeq(SkillNode, data.skills)
      ensures contactList == old(contactList) + MapSeq(ContactNode, data.contact)
    {
      SetTexts(data);
      AppendCv(data.cv);
      AppendProjects(data.projects);
      AppendSkills(data.skills);
      AppendContacts(data.contact);
    }

    /** The page title and the four text fields. */
    method SetTexts(data: Portfolio)
      modifies this`title, this`nameText, this`titleText, this`summaryText, this`aboutText
      ensures title == DocumentTitle(data.name, data.title)
      ensures nameText == data.name && titleText == data.title
      ensures summaryText == data.summary && aboutText == data.about
    {
      title := data.name + " - " + data.title;
      nameText := data.name;
      titleText := data.title;
      summaryText := data.summary;
      aboutText := data.about;
    }

    /** `data.cv.forEach(...)` into `cvList`. */
    method AppendCv(cv: seq<CvSection>)
      modifies this`cvList
      ensures cvList == old(cvList) + MapSeq(SectionNode, cv)
    {
      var k := 0;
      while k < |cv|
        invariant 0 <= k <= |cv|
        invariant cvList == old(cvList) + MapSeq(SectionNode, cv[..k])
      {
        var sectionDiv := BuildSection(cv[k]);
        AppendStep(SectionNode, old(cvList), cv, k);
        cvList := cvList + [sectionDiv];
        k := k + 1;
      }
      assert cv[..k] == cv;
    }

    /** `data.projects.forEach(...)` into `projectsList`. */
    method AppendProjects(projects: seq<Project>)
      modifies this`projectsList
      ensures projectsList == old(projectsList) + MapSeq(ProjectNode, projects)
    {
      var k := 0;
      while k < |projects|
        invariant 0 <= k <= |projects|
        invariant projectsList == old(projectsList) + MapSeq(ProjectNode, projects[..k])
      {
        var pDiv := ProjectNode(projects[k]);
        AppendStep(ProjectNode, old(projectsList), projects, k);
        projectsList := projectsList + [pDiv];
        k := k + 1;
      }
      assert projects[..k] == projects;
    }

    /** `data.skills.forEach(...)` into `skillsList`. */
    method AppendSkills(skills: seq<string>)
      modifies this`skillsList
      ensures skillsList == old(skillsList) + MapSeq(SkillNode, skills)
    {
      var k := 0;
      while k < |skills|
        invariant 0 <= k <= |skills|
        invariant skillsList == old(skillsList) + MapSeq(SkillNode, skills[..k])
      {
        var li := SkillNode(skills[k]);
        AppendStep(SkillNode, old(skillsList), skills, k);
        skillsList := skillsList + [li];
        k := k + 1;
      }
      assert skills[..k] == skills;
    }

    /** `Object.entries(data.contact).forEach(...)` into `contactList`. */
    method AppendContacts(contact: seq<(string, string)>)
      modifies this`contactList
      ensures contactList == old(contactList) + MapSeq(ContactNode, contact)
    {
      var k := 0;
      while k < |contact|
        invariant 0 <= k <= |contact|
        invariant contactList == old(contactList) + MapSeq(ContactNode, contact[..k])
      {
        var li := ContactNode(contact[k]);
        AppendStep(ContactNode, old(contactList), contact, k);
        contactList := contactList + [li];
        k := k + 1;
      }
      assert contact[..k] == contact;
    }
  }

  /** The label of an empty key is empty; upper-casing the label again changes nothing. */
  lemma LabelFacts(key: string)
    ensures key == "" ==> Label(key) == ""
    ensures Label(Label(key)) == Label(key)
    ensures key != "" && 'a' <= key[0] <= 'z' ==> Label(key) != key
  {
  }

  /**
   * Values are inserted verbatim, so the item template is ambiguous: an
   * organisation ending in " – x" and a period starting with "x – " render
   * the same markup.
   */
  lemma CvItemMarkupAmbiguous(role: string, org: string, x: string, period: string, details: string)
    ensures CvItemMarkup(CvItem(role, org + Dash + x, period, details))
         == CvItemMarkup(CvItem(role, org, x + Dash + period, details))
  {
  }

  /** Every CV section renders as its heading followed by one block per item, in item order. */
  lemma SectionLayout(section: CvSection)
    ensures SectionNode(section).content.Children?
    ensures |SectionNode(section).content.nodes| == 1 + |section.items|
    ensures SectionNode(section).content.nodes[0] == HeadingNode(section.category)
    ensures forall k :: 0 <= k < |section.items| ==>
              SectionNode(section).content.nodes[k + 1] == ItemNode(section.items[k])
  {
    OneBlockPerItem(ItemNode, section.items);
  }

  /** Each list mount point gains exactly one child per entry of its input, in input order. */
  lemma OneChildPerEntry(data: Portfolio)
    ensures |MapSeq(SectionNode, data.cv)| == |data.cv|
    ensures |MapSeq(ProjectNode, data.projects)| == |data.projects|
    ensures |MapSeq(SkillNode, data.skills)| == |data.skills|
    ensures |MapSeq(ContactNode, data.contact)| == |data.contact|
    ensures forall k :: 0 <= k < |data.cv| ==>
              MapSeq(SectionNode, data.cv)[k] == SectionNode(data.cv[k])
    ensures forall k :: 0 <= k < |data.projects| ==>
              MapSeq(ProjectNode, data.projects)[k] == ProjectNode(data.projects[k])
    ensures forall k :: 0 <= k < |data.skills| ==>
              MapSeq(SkillNode, data.skills)[k] == SkillNode(data.skills[k])
    ensures forall k :: 0 <= k < |data.contact| ==>
              MapSeq(ContactNode, data.contact)[k] == ContactNode(data.contact[k])
  {
    OneBlockPerItem(SectionNode, data.cv);
    OneBlockPerItem(ProjectNode, data.projects);
    OneBlockPerItem(SkillNode, data.skills);
    OneBlockPerItem(ContactNode, data.contact);
  }

  /** Regrouping the nine pieces of an anchor: the fixed middle between href and text as one string. */
  lemma RegroupAnchor(open: string, href: string, q: string, target: string, c: string, cls: string,
                      e: string, text: string, close: string)
    ensures open + href + q + target + c + cls + e + text + close
         == open + href + (q + target + c + cls + e) + text + close
  {
  }

  /** The contact markup of an `email` entry is the source's mailto template. */
  lemma EmailTemplate(value: string)
    ensures ContactMarkup("email", value)
         == "<a href=\"mailto:" + value + "\" class=\"underline\">" + value + "</a>"
  {
    var middle := Quote + TargetAttribute(None) + ClassOpen + "underline" + TagEnd;
    assert middle == "\" class=\"underline\">";
    RegroupAnchor(AnchorOpen, "mailto:" + value, Quote, TargetAttribute(None), ClassOpen, "underline", TagEnd, value, AnchorClose);
    assert AnchorOpen + ("mailto:" + value) == "<a href=\"mailto:" + value;
  }

  /** The contact markup of any other entry is the source's new-tab link template, with the label as text. */
  lemma LinkTemplate(key: string, value: string)
    requires key != "email"
    ensures ContactMarkup(key, value)
         == "<a href=\"" + value + "\" target=\"_blank\" class=\"underline\">" + Label(key) + "</a>"
  {
    var middle := Quote + TargetAttribute(Some("_blank")) + ClassOpen + "underline" + TagEnd;
    assert middle == "\" target=\"_blank\" class=\"underline\">";
    RegroupAnchor(AnchorOpen, value, Quote, TargetAttribute(Some("_blank")), ClassOpen, "underline", TagEnd, Label(key), AnchorClose);
  }

  /** A project block is the source's template: the link opens in a new tab, then the description follows. */
  lemma ProjectTemplate(p: Project)
    ensures ProjectMarkup(p)
         == "<a class=\"text-blue-600 dark:text-blue-400 underline font-medium\" target=\"_blank\" href=\""
            + p.link + "\">" + p.title + "</a>" + "<p class=\"text-sm\">" + p.description + "</p>"
  {
  }
}
