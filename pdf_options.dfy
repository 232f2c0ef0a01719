/** The options object handed to Puppeteer's `page.pdf`, restricted to the fields the two
    services set or let a caller override. A field that is `None` is absent from the object. */
module PdfOptions {
  import opened Support

  /** The `margin` object; each side is a CSS length such as "0mm". */
  datatype Margin = Margin(top: string, right: string, bottom: string, left: string)

  /** Margins of zero on every side. */
  const ZeroMargin := Margin("0mm", "0mm", "0mm", "0mm")

  datatype Options = Options(
    path: Option<string>,
    format: Option<string>,
    printBackground: Option<bool>,
    preferCSSPageSize: Option<bool>,
    margin: Option<Margin>,
    displayHeaderFooter: Option<bool>,
    scale: Option<real>,
    landscape: Option<bool>,
    timeout: Option<int>)

  /** The object with no field set: `{}`. */
  const NoOptions := Options(None, None, None, None, None, None, None, None, None)

  /** One field of `{ ...base, ...over }`: a field present in `over` wins. */
  function Pick<T>(base: Option<T>, over: Option<T>): Option<T>
  {
    if over.Some? then over else base
  }

  /** `{ ...base, ...over }`: the shallow spread of `over` on top of `base`. A `margin`
      given in `over` replaces the whole default margin object. */
  function Merge(base: Options, over: Options): (r: Options)
    ensures over.path.Some? ==> r.path == over.path
    ensures over.path.None? ==> r.path == base.path
    ensures over.format.Some? ==> r.format == over.format
    ensures over.format.None? ==> r.format == base.format
    ensures over.printBackground.Some? ==> r.printBackground == over.printBackground
    ensures over.printBackground.None? ==> r.printBackground == base.printBackground
    ensures over.preferCSSPageSize.Some? ==> r.preferCSSPageSize == over.preferCSSPageSize
    ensures over.preferCSSPageSize.None? ==> r.preferCSSPageSize == base.preferCSSPageSize
    ensures over.margin.Some? ==> r.margin == over.margin
    ensures over.margin.None? ==> r.margin == base.margin
    ensures over.displayHeaderFooter.Some? ==> r.displayHeaderFooter == over.displayHeaderFooter
    ensures over.displayHeaderFooter.None? ==> r.displayHeaderFooter == base.displayHeaderFooter
    ensures over.scale.Some? ==> r.scale == over.scale
    ensures over.scale.None? ==> r.scale == base.scale
    ensures over.landscape.Some? ==> r.landscape == over.landscape
    ensures over.landscape.None? ==> r.landscape == base.landscape
    ensures over.timeout.Some? ==> r.timeout == over.timeout
    ensures over.timeout.None? ==> r.timeout == base.timeout
    ensures over == NoOptions ==> r == base
    ensures base == NoOptions ==> r == over
  {
    Options(
      Pick(base.path, over.path),
      Pick(base.format, over.format),
      Pick(base.printBackground, over.printBackground),
      Pick(base.preferCSSPageSize, over.preferCSSPageSize),
      Pick(base.margin, over.margin),
      Pick(base.displayHeaderFooter, over.displayHeaderFooter),
      Pick(base.scale, over.scale),
      Pick(base.landscape, over.landscape),
      Pick(base.timeout, over.timeout))
  }

  /** Spreading the same overrides twice changes nothing more than spreading them once,
      and spreading `a` then `b` is spreading the merge of `a` and `b`. */
  lemma MergeIdempotentAndAssociative(base: Options, a: Options, b: Options)
    ensures Merge(Merge(base, a), a) == Merge(base, a)
    ensures Merge(Merge(base, a), b) == Merge(base, Merge(a, b))
  {
  }
}
