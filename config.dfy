/** The three process-wide settings, gathered in one object that the emit
    operations read. */
module Settings {
  import opened Wrappers
  import opened Transformers

  /** The Content-Type header value used when none is given. */
  const DefaultContentType := "application/json; charset=utf-8"

  class Config {
    /** The active transformer; None is a nil transformer. */
    var transformer: Option<Transformer>
    /** The default Content-Type header value; may be set to "". */
    var contentType: string
    /** Whether the envelope path indents its JSON. */
    var indent: bool

    /** The values the package variables start with. */
    constructor ()
      ensures transformer == Some(Default)
      ensures contentType == DefaultContentType
      ensures !indent
    {
      transformer := Some(Default);
      contentType := DefaultContentType;
      indent := false;
    }

    method SetTransformer(t: Option<Transformer>)
      modifies this
      ensures transformer == t
      ensures contentType == old(contentType) && indent == old(indent)
    {
      transformer := t;
    }

    /** Back to the default transformer; a second call changes nothing more. */
    method ResetTransformer()
      modifies this
      ensures transformer == Some(Default)
      ensures contentType == old(contentType) && indent == old(indent)
    {
      transformer := Some(Default);
    }

    method SetDefaultContentTypeHeader(contentType: string)
      modifies this
      ensures this.contentType == contentType
      ensures transformer == old(transformer) && indent == old(indent)
    {
      this.contentType := contentType;
    }

    method SetIndent(flag: bool)
      modifies this
      ensures indent == flag
      ensures transformer == old(transformer) && contentType == old(contentType)
    {
      indent := flag;
    }
  }

  /** Resetting twice leaves the same settings as resetting once. */
  method ResetTwice(c: Config)
    modifies c
    ensures c.transformer == Some(Default)
    ensures c.contentType == old(c.contentType) && c.indent == old(c.indent)
  {
    c.ResetTransformer();
    ghost var once := (c.transformer, c.contentType, c.indent);
    c.ResetTransformer();
    assert (c.transformer, c.contentType, c.indent) == once;
  }
}
