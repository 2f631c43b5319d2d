/**
 * The slide templates offered in the template picker, and their
 * instantiation as a new slide.
 */
module SlideTemplates {
  import opened JsPrelude
  import opened SliderTypes

  /** "Hero Section": a title, a subtitle and a call-to-action button. */
  function HeroTemplate(): Slide
  {
  Slide("template-hero", "Hero Section", Background(GradientBackground, "linear-gradient(135deg, #667eea 0%, #764ba2 100%)"),
    [
      Layer("hero-title", Text, "Welcome to Our Amazing Service", None,
        Style(100.0, 150.0, 800.0, 100.0, 1.0, 0.0, 1.0,
          map["fontSize" := Num(56.0), "fontWeight" := Str("bold"), "color" := Str("#ffffff")]),
        Animation("Slide In Left", "Fade Out", 1000.0, 200.0, "ease-out")),
      Layer("hero-subtitle", Text, "Create stunning presentations with our powerful editor", None,
        Style(100.0, 270.0, 700.0, 60.0, 1.0, 0.0, 2.0,
          map["fontSize" := Num(28.0), "fontWeight" := Str("normal"), "color" := Str("#e0e0e0")]),
        Animation("Slide In Left", "Fade Out", 1000.0, 600.0, "ease-out")),
      Layer("hero-button", Button, "Get Started Now", None,
        Style(100.0, 380.0, 200.0, 60.0, 1.0, 0.0, 3.0,
          map["fontSize" := Num(18.0), "fontWeight" := Str("bold"), "color" := Str("#ffffff"), "backgroundColor" := Str("#ff6b6b"), "borderRadius" := Num(30.0)]),
        Animation("Scale In", "Scale Out", 800.0, 1000.0, "ease-out"))
    ],
    15000.0)
  }

  /** "Features Showcase": a title and three feature lines. */
  function FeaturesTemplate(): Slide
  {
  Slide("template-features", "Features Showcase", Background(GradientBackground, "linear-gradient(135deg, #f093fb 0%, #f5576c 100%)"),
    [
      Layer("features-title", Text, "Powerful Features", None,
        Style(150.0, 100.0, 600.0, 80.0, 1.0, 0.0, 1.0,
          map["fontSize" := Num(48.0), "fontWeight" := Str("bold"), "color" := Str("#ffffff")]),
        Animation("Slide In Up", "Fade Out", 800.0, 0.0, "ease-out")),
      Layer("feature-1", Text, "\U{2728} Drag & Drop Editor", None,
        Style(150.0, 220.0, 400.0, 50.0, 1.0, 0.0, 2.0,
          map["fontSize" := Num(24.0), "fontWeight" := Str("normal"), "color" := Str("#ffffff")]),
        Animation("Slide In Left", "Fade Out", 600.0, 300.0, "ease-out")),
      Layer("feature-2", Text, "\U{1F3A8} Beautiful Animations", None,
        Style(150.0, 290.0, 400.0, 50.0, 1.0, 0.0, 3.0,
          map["fontSize" := Num(24.0), "fontWeight" := Str("normal"), "color" := Str("#ffffff")]),
        Animation("Slide In Left", "Fade Out", 600.0, 600.0, "ease-out")),
      Layer("feature-3", Text, "\U{1F4F1} Responsive Design", None,
        Style(150.0, 360.0, 400.0, 50.0, 1.0, 0.0, 4.0,
          map["fontSize" := Num(24.0), "fontWeight" := Str("normal"), "color" := Str("#ffffff")]),
        Animation("Slide In Left", "Fade Out", 600.0, 900.0, "ease-out"))
    ],
    15000.0)
  }

  /** "Call to Action": a title, a line of text and two buttons. */
  function CallToActionTemplate(): Slide
  {
  Slide("template-cta", "Call to Action", Background(GradientBackground, "linear-gradient(135deg, #4facfe 0%, #00f2fe 100%)"),
    [
      Layer("cta-title", Text, "Ready to Get Started?", None,
        Style(200.0, 180.0, 600.0, 80.0, 1.0, 0.0, 1.0,
          map["fontSize" := Num(42.0), "fontWeight" := Str("bold"), "color" := Str("#ffffff")]),
        Animation("Rotate In", "Fade Out", 1000.0, 0.0, "ease-out")),
      Layer("cta-text", Text, "Join thousands of creators building amazing presentations", None,
        Style(250.0, 280.0, 500.0, 60.0, 1.0, 0.0, 2.0,
          map["fontSize" := Num(20.0), "fontWeight" := Str("normal"), "color" := Str("#f0f9ff")]),
        Animation("Fade In", "Fade Out", 800.0, 500.0, "ease-out")),
      Layer("cta-button-1", Button, "Start Free Trial", None,
        Style(320.0, 380.0, 180.0, 50.0, 1.0, 0.0, 3.0,
          map["fontSize" := Num(16.0), "fontWeight" := Str("bold"), "color" := Str("#ffffff"), "backgroundColor" := Str("#10b981"), "borderRadius" := Num(25.0)]),
        Animation("Scale In", "Scale Out", 600.0, 800.0, "ease-out")),
      Layer("cta-button-2", Button, "Learn More", None,
        Style(520.0, 380.0, 140.0, 50.0, 1.0, 0.0, 4.0,
          map["fontSize" := Num(16.0), "fontWeight" := Str("bold"), "color" := Str("#0891b2"), "backgroundColor" := Str("#ffffff"), "borderRadius" := Num(25.0)]),
        Animation("Scale In", "Scale Out", 600.0, 1000.0, "ease-out"))
    ],
    15000.0)
  }

  /** `slideTemplates`, in declaration order. */
  function Templates(): seq<Slide>
  {
    [HeroTemplate(), FeaturesTemplate(), CallToActionTemplate()]
  }

  /** `slideTemplates.find(t => t.id === templateId)`. */
  function FindTemplate(templates: seq<Slide>, templateId: string): (r: Option<Slide>)
    ensures r.None? <==> forall i :: 0 <= i < |templates| ==> templates[i].id != templateId
    ensures r.Some? ==> exists i :: (0 <= i < |templates| && templates[i] == r.value
      && templates[i].id == templateId && forall j :: 0 <= j < i ==> templates[j].id != templateId)
    decreases |templates|
  {
    if templates == [] then None
    else if templates[0].id == templateId then Some(templates[0])
    else
      var r := FindTemplate(templates[1..], templateId);
      assert forall j :: 0 <= j < |templates| - 1 ==> templates[1..][j] == templates[j + 1];
      r
  }

  /**
   * `applyTemplate`: a copy of the template with the fresh id (the caller's
   * `Date.now()` text) and " Copy" after its name; nothing for an unknown id.
   */
  function ApplyTemplateFrom(templates: seq<Slide>, templateId: string, freshId: string): (r: Option<Slide>)
  {
    var t := FindTemplate(templates, templateId);
    if t.None? then None else Some(t.value.(id := freshId, name := t.value.name + " Copy"))
  }

  function ApplyTemplate(templateId: string, freshId: string): Option<Slide>
  {
    ApplyTemplateFrom(Templates(), templateId, freshId)
  }

  /**
   * An unknown id gives nothing. A known id gives the first template with that
   * id, under the fresh id and the name "<template name> Copy", with its
   * background, layers and duration unchanged.
   */
  lemma ApplyTemplateCopies(templates: seq<Slide>, templateId: string, freshId: string)
    ensures ApplyTemplateFrom(templates, templateId, freshId).None? <==>
      forall i :: 0 <= i < |templates| ==> templates[i].id != templateId
    ensures ApplyTemplateFrom(templates, templateId, freshId).Some? ==>
      var r := ApplyTemplateFrom(templates, templateId, freshId).value;
      exists i :: 0 <= i < |templates| && templates[i].id == templateId
        && r.id == freshId && r.name == templates[i].name + " Copy"
        && r.background == templates[i].background && r.layers == templates[i].layers
        && r.duration == templates[i].duration
  {
  }

  /**
   * Layer ids are copied, not regenerated: two instantiations of one template
   * under different slide ids hold layers with the same ids.
   */
  lemma ApplicationsShareLayerIds(templates: seq<Slide>, templateId: string, id1: string, id2: string)
    requires ApplyTemplateFrom(templates, templateId, id1).Some?
    ensures ApplyTemplateFrom(templates, templateId, id2).Some?
    ensures ApplyTemplateFrom(templates, templateId, id1).value.layers
         == ApplyTemplateFrom(templates, templateId, id2).value.layers
    ensures id1 != id2 ==> ApplyTemplateFrom(templates, templateId, id1) != ApplyTemplateFrom(templates, templateId, id2)
  {
  }

  /** A layer's animation fits the timeline grid of a 15000 ms slide. */
  predicate TimedOnGrid(l: Layer)
  {
    l.animation.delay == ((l.animation.delay / 100.0).Floor * 100) as real
    && l.animation.duration >= 100.0
    && l.animation.delay + l.animation.duration <= 15000.0
  }

  predicate WellTimedTemplate(t: Slide)
  {
    t.duration == 15000.0 && forall j :: 0 <= j < |t.layers| ==> TimedOnGrid(t.layers[j])
  }

  lemma HeroTimed()
    ensures WellTimedTemplate(HeroTemplate())
  {
  }

  lemma FeaturesTimed()
    ensures WellTimedTemplate(FeaturesTemplate())
  {
  }

  lemma CallToActionTimed()
    ensures WellTimedTemplate(CallToActionTemplate())
  {
  }

  /**
   * Every template lasts 15000 ms, and each of its layers starts on a 100 ms
   * grid line, lasts at least 100 ms and ends within the slide.
   */
  lemma TemplatesAreWellTimed()
    ensures forall i :: 0 <= i < |Templates()| ==> WellTimedTemplate(Templates()[i])
  {
    HeroTimed();
    FeaturesTimed();
    CallToActionTimed();
  }

  /** The catalogue holds three templates under these ids; any other id instantiates nothing. */
  lemma TemplateIds(freshId: string, other: string)
    requires other != "template-hero" && other != "template-features" && other != "template-cta"
    ensures |Templates()| == 3
    ensures Templates()[0].id == "template-hero" && Templates()[1].id == "template-features"
      && Templates()[2].id == "template-cta"
    ensures ApplyTemplate(other, freshId).None?
    ensures ApplyTemplate("template-hero", freshId) == Some(HeroTemplate().(id := freshId, name := "Hero Section Copy"))
  {
    ApplyTemplateCopies(Templates(), other, freshId);
    assert FindTemplate(Templates(), "template-hero") == Some(HeroTemplate());
    assert HeroTemplate().name + " Copy" == "Hero Section Copy";
  }
}
