/**
 * The process-wide settings of `config.py`: the base URL of the inference
 * service and the three presentation flags.
 */
module Config {

  const OllamaDefaultUrl: string := "http://127.0.0.1:11434/"

  /** Path of the chat-completion endpoint, relative to the base URL. */
  const ChatCompletionsPath: string := "v1/chat/completions"

  /** `LLM_URL + "v1/chat/completions"`: the base URL followed by the endpoint path, nothing in between. */
  function RequestUrl(base: string): (url: string)
    ensures |url| == |base| + |ChatCompletionsPath|
    ensures url[..|base|] == base && url[|base|..] == ChatCompletionsPath
  {
    base + ChatCompletionsPath
  }

  /** The base URL a request URL was composed from. */
  function BaseOf(url: string): string
    requires |url| >= |ChatCompletionsPath|
  {
    url[..|url| - |ChatCompletionsPath|]
  }

  /** Composing the request URL loses nothing: the base can be read back, so distinct bases give distinct URLs. */
  lemma RequestUrlRoundTrip(base: string)
    ensures BaseOf(RequestUrl(base)) == base
  {
    var url := RequestUrl(base);
    assert url[..|url| - |ChatCompletionsPath|] == url[..|base|];
  }

  class Settings {
    var llmUrl: string
    var useColor: bool
    var showBanner: bool
    var stream: bool

    /** The values the module starts with. */
    constructor ()
      ensures llmUrl == OllamaDefaultUrl
      ensures useColor && showBanner && stream
    {
      llmUrl := OllamaDefaultUrl;
      useColor, showBanner, stream := true, true, true;
    }

    /** `set_url`: replaces the base URL and nothing else. */
    method SetUrl(url: string)
      modifies this
      ensures llmUrl == url
      ensures GenRequestUrl() == url + ChatCompletionsPath
      ensures useColor == old(useColor) && showBanner == old(showBanner) && stream == old(stream)
    {
      llmUrl := url;
    }

    /** `gen_request_url`. */
    function GenRequestUrl(): (url: string)
      reads this
      ensures |url| >= |ChatCompletionsPath| && BaseOf(url) == llmUrl
      ensures url == llmUrl + ChatCompletionsPath
    {
      RequestUrlRoundTrip(llmUrl);
      RequestUrl(llmUrl)
    }
  }
}
