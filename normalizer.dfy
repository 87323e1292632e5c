/** The dispatch of AbstractResourceNormalizer: a resource container goes to
    the spider branch (HTML before PDF meta generation) or to one of the
    three Pimcore element hooks, or yields the empty stack. The five
    abstract hooks a concrete normalizer supplies are a record of
    functions, so every property below holds for every concrete normalizer. */
module ResourceNormalizer {
  import opened Resources

  datatype NormalizerException = NormalizerException(message: string)

  /** One normalized record: the container paired with the meta generated for it. */
  datatype NormalizedDataResource = NormalizedDataResource(resourceContainer: ResourceContainer, resourceMeta: ResourceMeta)

  /** A hook either returns a stack of records or throws. */
  type StackResult = Result<seq<NormalizedDataResource>, NormalizerException>

  /** A meta generator returns a meta, null, or throws. */
  type MetaResult = Result<Option<ResourceMeta>, NormalizerException>

  /** The abstract methods of AbstractResourceNormalizer. */
  datatype Hooks = Hooks(
    normalizePage: (ContextDefinition, ResourceContainer) -> StackResult,
    normalizeAsset: (ContextDefinition, ResourceContainer) -> StackResult,
    normalizeDataObject: (ContextDefinition, ResourceContainer) -> StackResult,
    generateResourceMetaFromHtmlResource: SpiderResource -> MetaResult,
    generateResourceMetaFromPdfResource: map<string, Value> -> MetaResult)

  /** Attribute names the spider branch looks for. */
  const HtmlAttribute := "html"
  const PdfContentAttribute := "pdf_content"

  /** Turns the generated meta into the returned stack: an exception
      propagates, null gives no record, a meta gives one record that pairs
      it with the container. */
  function StackFromMeta(c: ResourceContainer, meta: MetaResult): (r: StackResult)
    ensures r.Err? <==> meta.Err?
    ensures meta.Err? ==> r.error == meta.error
    ensures meta.Ok? ==> |r.value| <= 1
    ensures meta.Ok? ==> (r.value == [] <==> meta.value.None?)
    ensures meta.Ok? && meta.value.Some? ==>
              forall i :: 0 <= i < |r.value| ==>
                r.value[i].resourceContainer == c && r.value[i].resourceMeta == meta.value.value
  {
    match meta
    case Err(e) => Err(e)
    case Ok(None) => Ok([])
    case Ok(Some(m)) => Ok([NormalizedDataResource(c, m)])
  }

  /** normalizeSpiderResource: the `html` attribute is consulted first, then
      `pdf_content`; with neither, the meta stays null. */
  function NormalizeSpiderResource(h: Hooks, ctx: ContextDefinition, c: ResourceContainer): (r: StackResult)
    requires c.resource.Spider?
    ensures r.Ok? ==> |r.value| <= 1
    ensures r.Ok? ==> forall i :: 0 <= i < |r.value| ==> r.value[i].resourceContainer == c
    ensures !c.HasAttribute(HtmlAttribute) && !c.HasAttribute(PdfContentAttribute) ==> r == Ok([])
    ensures c.HasAttribute(HtmlAttribute) ==>
              r == StackFromMeta(c, h.generateResourceMetaFromHtmlResource(c.resource.spider))
    ensures !c.HasAttribute(HtmlAttribute) && c.HasAttribute(PdfContentAttribute) ==>
              r == StackFromMeta(c, h.generateResourceMetaFromPdfResource(c.attributes))
  {
    var meta: MetaResult :=
      if c.HasAttribute(HtmlAttribute) then h.generateResourceMetaFromHtmlResource(c.resource.spider)
      else if c.HasAttribute(PdfContentAttribute) then h.generateResourceMetaFromPdfResource(c.attributes)
      else Ok(None);
    StackFromMeta(c, meta)
  }

  /** normalizePimcoreResource: a non-element gives the empty stack; a Page,
      an Asset and a DataObject go to their hook (checked in that order,
      the families being disjoint); any other element (a Document that is
      not a Page) gives the empty stack. */
  function NormalizePimcoreResource(h: Hooks, ctx: ContextDefinition, c: ResourceContainer): (r: StackResult)
    ensures !c.resource.Element? ==> r == Ok([])
    ensures c.resource.Element? && c.resource.kind.Page? ==> r == h.normalizePage(ctx, c)
    ensures c.resource.Element? && IsAsset(c.resource.kind) ==> r == h.normalizeAsset(ctx, c)
    ensures c.resource.Element? && IsDataObject(c.resource.kind) ==> r == h.normalizeDataObject(ctx, c)
    ensures c.resource.Element? && c.resource.kind.OtherDocument? ==> r == Ok([])
  {
    match c.resource
    case Element(kind, _) =>
      if kind.Page? then h.normalizePage(ctx, c)
      else if IsAsset(kind) then h.normalizeAsset(ctx, c)
      else if IsDataObject(kind) then h.normalizeDataObject(ctx, c)
      else Ok([])
    case _ => Ok([])
  }

  /** normalizeToResourceStack: spider resources take the spider branch,
      everything else the Pimcore branch. */
  function NormalizeToResourceStack(h: Hooks, ctx: ContextDefinition, c: ResourceContainer): (r: StackResult)
    ensures c.resource.Spider? ==> r == NormalizeSpiderResource(h, ctx, c)
    ensures c.resource.Spider? && r.Ok? ==> |r.value| <= 1
    ensures !c.resource.Spider? ==> r == NormalizePimcoreResource(h, ctx, c)
    ensures c.resource.NotAnElement? ==> r == Ok([])
  {
    if c.resource.Spider? then NormalizeSpiderResource(h, ctx, c)
    else NormalizePimcoreResource(h, ctx, c)
  }

  /** A spider resource never reaches normalizePage, normalizeAsset or
      normalizeDataObject: replacing those three hooks changes nothing. */
  lemma SpiderIgnoresElementHooks(
    h: Hooks, ctx: ContextDefinition, c: ResourceContainer,
    page: (ContextDefinition, ResourceContainer) -> StackResult,
    asset: (ContextDefinition, ResourceContainer) -> StackResult,
    dataObject: (ContextDefinition, ResourceContainer) -> StackResult)
    requires c.resource.Spider?
    ensures NormalizeToResourceStack(h.(normalizePage := page, normalizeAsset := asset, normalizeDataObject := dataObject), ctx, c)
         == NormalizeToResourceStack(h, ctx, c)
  {
  }

  /** With an `html` attribute only the HTML meta generator is used: the PDF
      generator may be replaced by anything, whether or not `pdf_content` is
      present too. */
  lemma HtmlTakesPrecedence(
    h: Hooks, ctx: ContextDefinition, c: ResourceContainer,
    pdf: map<string, Value> -> MetaResult)
    requires c.resource.Spider? && c.HasAttribute(HtmlAttribute)
    ensures NormalizeToResourceStack(h.(generateResourceMetaFromPdfResource := pdf), ctx, c)
         == NormalizeToResourceStack(h, ctx, c)
  {
  }

  /** The spider branch yields the empty stack exactly when no attribute is
      present or the chosen generator returns null, and exactly one record,
      pairing the container with the generated meta, otherwise (unless the
      generator throws). */
  lemma SpiderCardinality(h: Hooks, ctx: ContextDefinition, c: ResourceContainer)
    requires c.resource.Spider?
    ensures var chosen: MetaResult :=
              if c.HasAttribute(HtmlAttribute) then h.generateResourceMetaFromHtmlResource(c.resource.spider)
              else if c.HasAttribute(PdfContentAttribute) then h.generateResourceMetaFromPdfResource(c.attributes)
              else Ok(None);
            var r := NormalizeToResourceStack(h, ctx, c);
            (r == Ok([]) <==> chosen == Ok(None)) &&
            (chosen.Ok? && chosen.value.Some? ==> r == Ok([NormalizedDataResource(c, chosen.value.value)])) &&
            (chosen.Err? ==> r == Err(chosen.error))
  {
  }

  /** A resource that is not a spider resource never reaches the two meta
      generators. */
  lemma ElementIgnoresMetaGenerators(
    h: Hooks, ctx: ContextDefinition, c: ResourceContainer,
    html: SpiderResource -> MetaResult,
    pdf: map<string, Value> -> MetaResult)
    requires !c.resource.Spider?
    ensures NormalizeToResourceStack(h.(generateResourceMetaFromHtmlResource := html,
                                        generateResourceMetaFromPdfResource := pdf), ctx, c)
         == NormalizeToResourceStack(h, ctx, c)
  {
  }

  /** Each element reaches at most one of the three element hooks: a Page
      reaches only normalizePage, an Asset only normalizeAsset, a DataObject
      only normalizeDataObject (the other two may be replaced freely). */
  lemma ElementReachesOneHook(
    h: Hooks, ctx: ContextDefinition, c: ResourceContainer,
    other1: (ContextDefinition, ResourceContainer) -> StackResult,
    other2: (ContextDefinition, ResourceContainer) -> StackResult)
    requires c.resource.Element?
    ensures c.resource.kind.Page? ==>
              NormalizeToResourceStack(h.(normalizeAsset := other1, normalizeDataObject := other2), ctx, c)
              == h.normalizePage(ctx, c)
    ensures IsAsset(c.resource.kind) ==>
              NormalizeToResourceStack(h.(normalizePage := other1, normalizeDataObject := other2), ctx, c)
              == h.normalizeAsset(ctx, c)
    ensures IsDataObject(c.resource.kind) ==>
              NormalizeToResourceStack(h.(normalizePage := other1, normalizeAsset := other2), ctx, c)
              == h.normalizeDataObject(ctx, c)
    ensures c.resource.kind.OtherDocument? ==> NormalizeToResourceStack(h, ctx, c) == Ok([])
  {
  }
}
