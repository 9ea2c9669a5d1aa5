/** The `{ html, css, js }` records every component passes around. */
module Codes {
  import opened Wrappers

  /** A language of a snippet, which is also an editor tab. */
  datatype Lang = Html | Css | Js {

    /** The record property and tab key: `'html'`, `'css'` or `'js'`. */
    function Key(): string {
      match this
      case Html => "html"
      case Css => "css"
      case Js => "js"
    }

    /** Position in the fixed order html, css, js. */
    function Rank(): nat {
      match this
      case Html => 0
      case Css => 1
      case Js => 2
    }
  }

  /** A record whose three fields are all strings. */
  datatype Codes = Codes(html: string, css: string, js: string) {

    /** `codes[lang]`. */
    function Get(lang: Lang): string {
      match lang
      case Html => html
      case Css => css
      case Js => js
    }

    /** `{ ...codes, [lang]: value }`: the field `lang` becomes `value` and
        the other two fields keep theirs. */
    function With(lang: Lang, value: string): (r: Codes)
      ensures r.Get(lang) == value
      ensures forall other :: other != lang ==> r.Get(other) == Get(other)
    {
      match lang
      case Html => this.(html := value)
      case Css => this.(css := value)
      case Js => this.(js := value)
    }
  }

  /** A record whose fields may be missing (`undefined`). */
  datatype PartialCodes = PartialCodes(html: Option<string>, css: Option<string>, js: Option<string>) {

    function Get(lang: Lang): Option<string> {
      match lang
      case Html => html
      case Css => css
      case Js => js
    }
  }

  /** A complete record seen as one whose fields may be missing. */
  function Whole(c: Codes): (p: PartialCodes)
    ensures forall lang :: p.Get(lang) == Some(c.Get(lang))
  {
    PartialCodes(Some(c.html), Some(c.css), Some(c.js))
  }
}
