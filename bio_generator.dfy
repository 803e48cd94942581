/** src/tools/Social/BioGenerator.tsx: the three bio templates, the choice of
    one by the selected vibe with the professional one as fallback, and the
    `copied` flag the generation resets. */
module BioGenerator {

  import opened Wrappers

  /** A template literal with two holes: the profession, then the hobbies. */
  datatype Template = Template(before: string, between: string, after: string)

  function Fill(t: Template, profession: string, hobbies: string): string {
    t.before + profession + t.between + hobbies + t.after
  }

  const Professional: Template :=
    Template("Helping businesses grow through ", ". Passionate about ", ". Let's connect! \U{1F680}")
  const Creative: Template :=
    Template("✨ ", " by day, ", " enthusiast by night. Creating magic every day. ✨")
  const Funny: Template :=
    Template("Professional ", ". I run on coffee and ", ". Probably thinking about food right now. \U{1F355}")

  /** `templates[vibe]`: the three keys of the object, nothing for any other
      vibe. */
  function TemplateFor(vibe: string): Option<Template> {
    if vibe == "professional" then Some(Professional)
    else if vibe == "creative" then Some(Creative)
    else if vibe == "funny" then Some(Funny)
    else None
  }

  /** `templates[vibe] || templates.professional`: the professional bio
      replaces a missing or empty one. */
  function Bio(vibe: string, profession: string, hobbies: string): string {
    var chosen := TemplateFor(vibe);
    if chosen.Some? && Fill(chosen.value, profession, hobbies) != "" then Fill(chosen.value, profession, hobbies)
    else Fill(Professional, profession, hobbies)
  }

  /** The template a vibe ends up with: its own for the three known vibes,
      the professional one for any other. */
  function Chosen(vibe: string): (t: Template)
    ensures TemplateFor(vibe).Some? ==> t == TemplateFor(vibe).value
    ensures TemplateFor(vibe).None? ==> t == Professional
  {
    match TemplateFor(vibe)
    case Some(t) => t
    case None => Professional
  }

  /** A filled template is never empty, so the fallback only replaces an
      unknown vibe. */
  lemma BioUsesChosenTemplate(vibe: string, profession: string, hobbies: string)
    ensures Bio(vibe, profession, hobbies) == Fill(Chosen(vibe), profession, hobbies)
    ensures vibe == "professional" ==> Bio(vibe, profession, hobbies) == Fill(Professional, profession, hobbies)
    ensures vibe == "creative" ==> Bio(vibe, profession, hobbies) == Fill(Creative, profession, hobbies)
    ensures vibe == "funny" ==> Bio(vibe, profession, hobbies) == Fill(Funny, profession, hobbies)
    ensures vibe !in {"professional", "creative", "funny"} ==>
      Bio(vibe, profession, hobbies) == Fill(Professional, profession, hobbies)
  {
    var t := Chosen(vibe);
    assert t.before != "";
    assert |Fill(t, profession, hobbies)| >= |t.before|;
  }

  /** A filled template holds the profession after the opening and the
      hobbies after the profession and the middle. */
  lemma FillPositions(t: Template, profession: string, hobbies: string)
    ensures var b, p := Fill(t, profession, hobbies), |t.before|;
      var h := p + |profession| + |t.between|;
      h + |hobbies| <= |b| && b[p..p + |profession|] == profession && b[h..h + |hobbies|] == hobbies
  {
    var b := Fill(t, profession, hobbies);
    var p := |t.before|;
    var h := p + |profession| + |t.between|;
    assert b == t.before + profession + t.between + hobbies + t.after;
    assert b[p..p + |profession|] == profession;
    assert b[h..h + |hobbies|] == hobbies;
  }

  /** The bio holds the profession text after the template's opening and the
      hobbies text after it, with the template's middle between them. */
  lemma ProfessionThenHobbies(vibe: string, profession: string, hobbies: string)
    ensures var b, t := Bio(vibe, profession, hobbies), Chosen(vibe);
      var p := |t.before|;
      var h := p + |profession| + |t.between|;
      h + |hobbies| <= |b| && b[p..p + |profession|] == profession && b[h..h + |hobbies|] == hobbies
  {
    BioUsesChosenTemplate(vibe, profession, hobbies);
    FillPositions(Chosen(vibe), profession, hobbies);
  }

  /** The state `generateBio` and `copyToClipboard` write. */
  datatype BioState = BioState(generatedBio: string, copied: bool)

  /** `generateBio`: the new bio is shown and `copied` is reset. */
  function Generate(st: BioState, vibe: string, profession: string, hobbies: string): (r: BioState)
    ensures r.generatedBio == Fill(Chosen(vibe), profession, hobbies) && !r.copied
  {
    BioUsesChosenTemplate(vibe, profession, hobbies);
    BioState(Bio(vibe, profession, hobbies), false)
  }

  /** `copyToClipboard`: the shown bio is the text written, and `copied` is
      set. */
  function Copy(st: BioState): (r: (BioState, string))
    ensures r.1 == st.generatedBio && r.0.generatedBio == st.generatedBio && r.0.copied
  {
    (st.(copied := true), st.generatedBio)
  }

  /** Generating after copying shows the copy mark no longer. */
  lemma GenerateResetsCopied(st: BioState, vibe: string, profession: string, hobbies: string)
    ensures !Generate(Copy(st).0, vibe, profession, hobbies).copied
    ensures Generate(Copy(st).0, vibe, profession, hobbies) == Generate(st, vibe, profession, hobbies)
  {
  }
}
