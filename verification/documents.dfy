/**
 * The compiled document and the visitors of the compilation pipeline.  The
 * visitors' bodies are not part of this model: each is an opaque pass over
 * the bucket and an opaque pass over the document, either of which may fail.
 */
module Documents {
  import opened Wrappers
  import opened SeparateSubclass
  import opened Buckets

  /** HibernateMapping: its classes, filters and imports, plus the settings visitors write onto it. */
  datatype HibernateMapping = HibernateMapping(
    classes: seq<ClassFragment>,
    filters: seq<FilterDefinition>,
    imports: seq<ImportMapping>,
    settings: map<string, string>)

  /** `new HibernateMapping()` */
  const EmptyDocument := HibernateMapping([], [], [], map[])

  /** An IMappingModelVisitor of the pipeline: `Visit(bucket)` and `Visit(hbm)`. */
  datatype Visitor = Visitor(
    visitBucket: BucketContents -> Result<BucketContents, string>,
    visitDocument: HibernateMapping -> Result<HibernateMapping, string>)

  /** Every visitor visits the bucket, in list order; the first failure aborts. */
  function VisitBucket(visitors: seq<Visitor>, b: BucketContents): (r: Result<BucketContents, string>)
    ensures visitors == [] ==> r == Ok(b)
    decreases |visitors|
  {
    if visitors == [] then Ok(b)
    else
      var b' :- visitors[0].visitBucket(b);
      VisitBucket(visitors[1..], b')
  }

  /** Every visitor visits the document, in list order; the first failure aborts. */
  function VisitDocument(visitors: seq<Visitor>, d: HibernateMapping): (r: Result<HibernateMapping, string>)
    ensures visitors == [] ==> r == Ok(d)
    decreases |visitors|
  {
    if visitors == [] then Ok(d)
    else
      var d' :- visitors[0].visitDocument(d);
      VisitDocument(visitors[1..], d')
  }

  /** Running the visitors one by one: after the first k, one more step is the k-th visitor. */
  lemma {:induction false} VisitBucketStep(visitors: seq<Visitor>, b: BucketContents, k: nat)
    requires k < |visitors|
    requires VisitBucket(visitors[..k], b).Ok?
    ensures VisitBucket(visitors[..k + 1], b) ==
      visitors[k].visitBucket(VisitBucket(visitors[..k], b).value)
    decreases k
  {
    if k > 0 {
      var b' := visitors[0].visitBucket(b);
      assert visitors[..k][1..] == visitors[1..][..k - 1];
      assert visitors[..k + 1][1..] == visitors[1..][..k];
      VisitBucketStep(visitors[1..], b'.value, k - 1);
    }
  }

  /** The same for the pass over the document. */
  lemma {:induction false} VisitDocumentStep(visitors: seq<Visitor>, d: HibernateMapping, k: nat)
    requires k < |visitors|
    requires VisitDocument(visitors[..k], d).Ok?
    ensures VisitDocument(visitors[..k + 1], d) ==
      visitors[k].visitDocument(VisitDocument(visitors[..k], d).value)
    decreases k
  {
    if k > 0 {
      var d' := visitors[0].visitDocument(d);
      assert visitors[..k][1..] == visitors[1..][..k - 1];
      assert visitors[..k + 1][1..] == visitors[1..][..k];
      VisitDocumentStep(visitors[1..], d'.value, k - 1);
    }
  }

  /** A failing visitor stops the pass: no later visitor runs and the failure is the pass's result. */
  lemma {:induction false} VisitBucketStopsAtFailure(visitors: seq<Visitor>, b: BucketContents, k: nat)
    requires k <= |visitors|
    requires VisitBucket(visitors[..k], b).Err?
    ensures VisitBucket(visitors, b) == VisitBucket(visitors[..k], b)
    decreases k
  {
    assert k > 0;
    var b' := visitors[0].visitBucket(b);
    if b'.Ok? {
      assert visitors[..k][1..] == visitors[1..][..k - 1];
      VisitBucketStopsAtFailure(visitors[1..], b'.value, k - 1);
    }
  }
}
