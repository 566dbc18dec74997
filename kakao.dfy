/**
 * The KakaoTalk i Open Builder callback of the back end
 * (`endpoints/kakao.py`, `schemas/kakao.py`): for now it answers every
 * callback with one text block echoing what the user said.
 */
module Kakao {
  import opened Wrappers
  import opened Text

  /** `KakaoUserRequest`: what the user said. */
  datatype UserRequest = UserRequest(utterance: string, lang: Option<string>, timezone: Option<string>)

  /** `KakaoUser`; the free-form `properties` object is kept as its text. */
  datatype User = User(id: string, kind: Option<string>, properties: Option<string>)

  /** `KakaoBot`. */
  datatype Bot = Bot(id: string, name: Option<string>)

  /** `KakaoCallbackRequest`; the free-form `intent` and `action` objects are kept as their text. */
  datatype CallbackRequest = CallbackRequest(
    intent: Option<string>,
    userRequest: UserRequest,
    user: User,
    bot: Bot,
    action: Option<string>)

  /** `KakaoOutput` holding a `KakaoSimpleText`. */
  datatype Output = SimpleText(text: string)

  /** `KakaoTemplate`. */
  datatype Template = Template(outputs: seq<Output>)

  /** `KakaoCallbackResponse`. */
  datatype CallbackResponse = CallbackResponse(version: string, template: Template)

  /** The default response format version. */
  const Version := "2.0"

  /** The text in front of the echoed utterance. */
  const EchoPrefix := "[Nexus Core] 메시지를 수신했습니다: "

  /** Line 39: the echo of one utterance. */
  function Echo(utterance: string): (r: string)
    ensures StartsWith(r, EchoPrefix)
    ensures r[|EchoPrefix|..] == utterance
  {
    EchoPrefix + utterance
  }

  /** Lines 24-44: a version-2.0 response with exactly one text block, the echo of the utterance. */
  function Callback(request: CallbackRequest): (r: CallbackResponse)
    ensures r.version == Version
    ensures |r.template.outputs| == 1
    ensures StartsWith(r.template.outputs[0].text, EchoPrefix)
    ensures r.template.outputs[0].text[|EchoPrefix|..] == request.userRequest.utterance
  {
    CallbackResponse(Version, Template([SimpleText(Echo(request.userRequest.utterance))]))
  }

  /** The answer depends on the utterance alone: user, bot, intent, action, language and time zone play no part. */
  lemma OnlyUtteranceMatters(a: CallbackRequest, b: CallbackRequest)
    ensures Callback(a) == Callback(b) <==> a.userRequest.utterance == b.userRequest.utterance
  {
    if Callback(a) == Callback(b) {
      EchoRecovers(a.userRequest.utterance);
      EchoRecovers(b.userRequest.utterance);
    }
  }

  /** What the user said can be read back from the echo. */
  function Unecho(text: string): (r: Option<string>)
    ensures r.Some? <==> StartsWith(text, EchoPrefix)
  {
    if StartsWith(text, EchoPrefix) then Some(text[|EchoPrefix|..]) else None
  }

  lemma EchoRecovers(utterance: string)
    ensures Unecho(Echo(utterance)) == Some(utterance)
  {
  }

  /** And an echo is only ever read back to the utterance that made it. */
  lemma EchoIsEcho(text: string)
    requires Unecho(text).Some?
    ensures Echo(Unecho(text).value) == text
  {
    assert text == text[..|EchoPrefix|] + text[|EchoPrefix|..];
  }
}
