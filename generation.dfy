/**
 * The generation client: the data-dependent parts of the prompt, the
 * clean-up of the model's answer, and the single error every failure is
 * turned into. The call to the text-generation service is a parameter:
 * a function from the prompt to what the service answered.
 */
module Generation {
  import opened Optional
  import opened Text
  import opened Types
  import Lists

  /** What a `catch` clause receives: an `Error` object with its message, or any other thrown value. */
  datatype Thrown = ErrorObject(message: string) | NonError

  /** How the promise returned by `generatePortfolio` settles. */
  datatype Settled = Fulfilled(html: string) | Rejected(reason: Thrown)

  /**
   * What the service did with the prompt: answered, with a text that may be
   * missing (`response.text` is `undefined`), or failed (network, quota,
   * overload, ...).
   */
  datatype Reply = Answered(text: Option<string>) | CallFailed

  const FailureMessage: string :=
    "Failed to generate portfolio. The AI model might be overloaded. Please try again later."

  const OpenFence: string := "```html"
  const CloseFence: string := "```"

  // ---------------------------------------------------------------------
  // The prompt's data-dependent fragments
  // ---------------------------------------------------------------------

  /** The lines of one work-experience block of the prompt. */
  datatype ExperienceLines = ExperienceLines(company: string, role: string, dates: string, description: string)

  /** The lines of one project block of the prompt. */
  datatype ProjectLines = ProjectLines(title: string, description: string, gitHub: string, liveDemo: string)

  /**
   * Everything the prompt says that depends on the portfolio, in the order
   * the template places it; the fixed instruction text around these
   * fragments is not modelled.
   */
  datatype PromptFields = PromptFields(
    pictureDataUri: string,
    theme: string, colorScheme: string, layout: string,
    name: string, title: string, bio: string, pictureNote: string,
    technical: string, tools: string, soft: string,
    experience: seq<ExperienceLines>, projects: seq<ProjectLines>)

  const PictureIncluded: string := "Yes, included in data URI."
  const NoPicture: string := "No picture provided."
  const NotAvailable: string := "N/A"
  const JpegDataUriPrefix: string := "data:image/jpeg;base64,"

  /** The image source the prompt asks the model to embed: the stored payload behind a JPEG data-URI prefix. */
  function PictureDataUri(profilePicture: string): (uri: string)
    ensures StartsWith(uri, JpegDataUriPrefix)
    ensures uri[|JpegDataUriPrefix|..] == profilePicture
  {
    JpegDataUriPrefix + profilePicture
  }

  /** The picture line says "Yes" exactly when a picture is stored. */
  function PictureNote(profilePicture: string): (note: string)
    ensures note == PictureIncluded <==> profilePicture != ""
    ensures note == NoPicture <==> profilePicture == ""
  {
    if profilePicture != "" then PictureIncluded else NoPicture
  }

  /** A project link as the prompt prints it: a missing or empty link reads "N/A". */
  function LinkText(link: Option<string>): (text: string)
    ensures link.Some? && link.value != "" ==> text == link.value
    ensures link.None? || link.value == "" ==> text == NotAvailable
    ensures text != ""
  {
    if link.Some? && link.value != "" then link.value else NotAvailable
  }

  /** One skill category as the prompt prints it: the skills joined with ", ". */
  function SkillList(skills: seq<string>): (text: string)
    ensures skills == [] ==> text == ""
    ensures skills != [] ==> |text| == TotalLength(skills) + 2 * (|skills| - 1)
    ensures skills != [] ==> StartsWith(text, skills[0])
  {
    var text := Join(skills, ", ");
    assert skills != [] ==> |text| == TotalLength(skills) + 2 * (|skills| - 1) && StartsWith(text, skills[0]) by {
      if skills != [] {
        JoinLength(skills, ", ");
        JoinPrefix(skills, ", ", 1);
        assert skills[..1] == [skills[0]];
      }
    }
    text
  }

  function ExperienceBlock(e: Experience): ExperienceLines {
    ExperienceLines(e.company, e.role, e.startDate + " - " + e.endDate, e.description)
  }

  function ProjectBlock(p: Project): ProjectLines {
    ProjectLines(p.title, p.description, LinkText(p.githubLink), LinkText(p.demoLink))
  }

  /**
   * `createPrompt`, reduced to the fragments that depend on the data: the
   * design choices can be read back from their names, the personal details
   * appear as entered, the picture travels whole inside the data URI, and
   * there is one block per experience entry and per project.
   */
  function CreatePrompt(data: PortfolioData): (prompt: PromptFields)
    ensures ThemeFromName(prompt.theme) == Some(data.design.theme)
    ensures ColorSchemeFromName(prompt.colorScheme) == Some(data.design.colorScheme)
    ensures LayoutFromName(prompt.layout) == Some(data.design.layout)
    ensures prompt.name == data.basicInfo.name && prompt.title == data.basicInfo.title && prompt.bio == data.basicInfo.bio
    ensures StartsWith(prompt.pictureDataUri, JpegDataUriPrefix) && prompt.pictureDataUri[|JpegDataUriPrefix|..] == data.basicInfo.profilePicture
    ensures prompt.pictureNote == PictureIncluded <==> data.basicInfo.profilePicture != ""
    ensures |prompt.experience| == |data.experience| && |prompt.projects| == |data.projects|
  {
    var b := data.basicInfo;
    PromptFields(
      PictureDataUri(b.profilePicture),
      ThemeName(data.design.theme), ColorSchemeName(data.design.colorScheme), LayoutName(data.design.layout),
      b.name, b.title, b.bio, PictureNote(b.profilePicture),
      SkillList(data.skills.technical), SkillList(data.skills.tools), SkillList(data.skills.soft),
      Lists.Map(data.experience, ExperienceBlock), Lists.Map(data.projects, ProjectBlock))
  }

  /**
   * The prompt has one experience block and one project block per entry, in
   * list order, each carrying that entry's fields.
   */
  lemma PromptBlocksFollowLists(data: PortfolioData)
    ensures |CreatePrompt(data).experience| == |data.experience|
    ensures forall i :: 0 <= i < |data.experience| ==>
      CreatePrompt(data).experience[i].company == data.experience[i].company &&
      CreatePrompt(data).experience[i].role == data.experience[i].role &&
      CreatePrompt(data).experience[i].dates == data.experience[i].startDate + " - " + data.experience[i].endDate &&
      CreatePrompt(data).experience[i].description == data.experience[i].description
    ensures |CreatePrompt(data).projects| == |data.projects|
    ensures forall i :: 0 <= i < |data.projects| ==>
      CreatePrompt(data).projects[i].title == data.projects[i].title &&
      CreatePrompt(data).projects[i].description == data.projects[i].description &&
      CreatePrompt(data).projects[i].gitHub == LinkText(data.projects[i].githubLink) &&
      CreatePrompt(data).projects[i].liveDemo == LinkText(data.projects[i].demoLink)
  {
  }

  /** Two portfolios that differ in their design choices give prompts that differ in them too. */
  lemma PromptNamesDesign(a: PortfolioData, b: PortfolioData)
    requires a.design != b.design
    ensures CreatePrompt(a) != CreatePrompt(b)
  {
    var pa, pb := CreatePrompt(a), CreatePrompt(b);
    if a.design.theme != b.design.theme {
      assert ThemeFromName(pa.theme) == Some(a.design.theme);
      assert ThemeFromName(pb.theme) == Some(b.design.theme);
    } else if a.design.colorScheme != b.design.colorScheme {
      assert ColorSchemeFromName(pa.colorScheme) == Some(a.design.colorScheme);
      assert ColorSchemeFromName(pb.colorScheme) == Some(b.design.colorScheme);
    } else {
      assert LayoutFromName(pa.layout) == Some(a.design.layout);
      assert LayoutFromName(pb.layout) == Some(b.design.layout);
    }
  }

  // ---------------------------------------------------------------------
  // Cleaning the answer
  // ---------------------------------------------------------------------

  /** Where the kept text begins: past a leading "```html", if there is one. */
  function FenceStart(text: string): (k: nat)
    ensures k <= |text|
  {
    if StartsWith(text, OpenFence) then |OpenFence| else 0
  }

  /** Where the kept text ends: before a trailing "```" of what is left after the leading strip, if there is one. */
  function FenceEnd(text: string): (k: nat)
    ensures FenceStart(text) <= k <= |text|
  {
    if EndsWith(text[FenceStart(text)..], CloseFence) then |text| - |CloseFence| else |text|
  }

  /** The answer with at most one leading and one trailing fence removed, then trimmed. */
  function Cleaned(text: string): (html: string)
    ensures Trimmed(html)
    ensures |html| <= FenceEnd(text) - FenceStart(text)
  {
    Trim(text[FenceStart(text)..FenceEnd(text)])
  }

  /**
   * A leading "```html" loses exactly its seven characters, once; a
   * trailing "```", looked for after that, loses exactly its three, once;
   * without fences the answer is only trimmed.
   */
  lemma CleanedCases(text: string)
    ensures !StartsWith(text, OpenFence) && !EndsWith(text, CloseFence) ==> Cleaned(text) == Trim(text)
    ensures StartsWith(text, OpenFence) && !EndsWith(text[7..], CloseFence) ==> Cleaned(text) == Trim(text[7..])
    ensures !StartsWith(text, OpenFence) && EndsWith(text, CloseFence) ==> Cleaned(text) == Trim(text[..|text| - 3])
    ensures StartsWith(text, OpenFence) && EndsWith(text[7..], CloseFence) ==> Cleaned(text) == Trim(text[7..|text| - 3])
  {
    if StartsWith(text, OpenFence) {
      assert FenceStart(text) == 7;
    } else {
      assert FenceStart(text) == 0;
      assert text[0..] == text;
      if EndsWith(text, CloseFence) {
        assert FenceEnd(text) == |text| - 3;
        assert text[0..|text| - 3] == text[..|text| - 3];
      } else {
        assert FenceEnd(text) == |text|;
        assert text[0..|text|] == text;
      }
    }
  }

  /**
   * The cleaned answer neither begins nor ends with white space and is a
   * piece of the answer, cut between the fences.
   */
  lemma CleanedIsPiece(text: string)
    ensures Trimmed(Cleaned(text))
    ensures exists k :: FenceStart(text) <= k && k + |Cleaned(text)| <= FenceEnd(text) && SliceAt(Cleaned(text), text, k)
  {
    var i, j := FenceStart(text), FenceEnd(text);
    var mid := text[i..j];
    TrimIsSlice(mid);
    var k := |mid| - |TrimStart(mid)|;
    SliceOfSlice(Cleaned(text), text, i, j, k);
  }

  /**
   * An answer that is a document wrapped in fences, with white space
   * around the document, cleans to exactly that document.
   */
  lemma CleanedFencedDocument(before: string, doc: string, after: string)
    requires forall i :: 0 <= i < |before| ==> IsSpace(before[i])
    requires forall i :: 0 <= i < |after| ==> IsSpace(after[i])
    requires Trimmed(doc)
    ensures Cleaned(OpenFence + (before + doc + after) + CloseFence) == doc
  {
    var mid := before + doc + after;
    var text := OpenFence + mid + CloseFence;
    assert text[..7] == OpenFence;
    assert FenceStart(text) == 7;
    assert text[7..] == mid + CloseFence;
    assert (mid + CloseFence)[|mid + CloseFence| - 3..] == CloseFence;
    assert FenceEnd(text) == |text| - 3;
    assert text[7..|text| - 3] == mid;
    TrimPadded(before, doc, after);
  }

  /** An answer that already is a bare document comes back unchanged. */
  lemma CleanedBareDocument(doc: string)
    requires Trimmed(doc) && !StartsWith(doc, OpenFence) && !EndsWith(doc, CloseFence)
    ensures Cleaned(doc) == doc
  {
    assert doc[0..] == doc;
    assert doc[0..|doc|] == doc;
    TrimIdentity(doc);
  }

  /** Trimming white space off both sides of a trimmed text gives that text. */
  lemma TrimPadded(before: string, doc: string, after: string)
    requires forall i :: 0 <= i < |before| ==> IsSpace(before[i])
    requires forall i :: 0 <= i < |after| ==> IsSpace(after[i])
    requires Trimmed(doc)
    ensures Trim(before + doc + after) == doc
  {
    var s := before + doc + after;
    if doc == [] {
      assert s == before + after;
      TrimRemovesOnlySpace(s);
      assert forall i :: 0 <= i < |s| ==> IsSpace(s[i]) by {
        assert forall i :: 0 <= i < |before| ==> s[i] == before[i];
        assert forall i :: |before| <= i < |s| ==> s[i] == after[i - |before|];
      }
    } else {
      assert s == before + (doc + after);
      assert (doc + after)[0] == doc[0];
      DropLeadingRun(before, doc + after);
      DropTrailingRun(doc, after);
    }
  }

  /** Trimming the end of a word followed by a white-space run leaves the word. */
  lemma {:induction false} DropTrailingRun(doc: string, after: string)
    requires doc != [] && !IsSpace(doc[|doc| - 1])
    requires forall i :: 0 <= i < |after| ==> IsSpace(after[i])
    ensures TrimEnd(doc + after) == doc
    decreases |after|
  {
    var s := doc + after;
    if after == [] {
      assert s == doc;
    } else {
      var front := after[..|after| - 1];
      assert s[|s| - 1] == after[|after| - 1];
      assert s[..|s| - 1] == doc + front;
      DropTrailingRun(doc, front);
    }
  }

  /**
   * The clean-up of `generatePortfolio`: the local copy of the answer loses
   * a leading fence, then a trailing fence, and is trimmed.
   */
  method CleanResponse(text: string) returns (html: string)
    ensures html == Cleaned(text)
  {
    html := text;
    if StartsWith(html, OpenFence) {
      html := html[|OpenFence|..];
    }
    assert html == text[FenceStart(text)..];
    if EndsWith(html, CloseFence) {
      html := html[..|html| - |CloseFence|];
    }
    assert html == text[FenceStart(text)..FenceEnd(text)];
    html := Trim(html);
  }

  /**
   * `generatePortfolio`: asks the service once with the prompt built from
   * the data. A text answer settles with its cleaned form; a failed call,
   * or an answer without text (whose clean-up throws), settles with an
   * `Error` carrying the one fixed message.
   */
  method GeneratePortfolio(data: PortfolioData, service: PromptFields -> Reply) returns (outcome: Settled)
    ensures outcome.Fulfilled? <==> service(CreatePrompt(data)).Answered? && service(CreatePrompt(data)).text.Some?
    ensures outcome.Fulfilled? ==> outcome.html == Cleaned(service(CreatePrompt(data)).text.value)
    ensures outcome.Rejected? ==> outcome.reason == ErrorObject(FailureMessage)
  {
    var prompt := CreatePrompt(data);
    var reply := service(prompt);
    if reply.Answered? && reply.text.Some? {
      var html := CleanResponse(reply.text.value);
      outcome := Fulfilled(html);
    } else {
      outcome := Rejected(ErrorObject(FailureMessage));
    }
  }
}
