/**
 * The Flask webhooks of main.py that drive a call through Twilio: the
 * incoming call is forwarded to the artisan's mobile; if nobody answers,
 * the AI greeting plays and a message is recorded; the recording is
 * acknowledged. TwiML is kept abstract as a list of verbs; its XML
 * rendering is not modelled.
 */
module Webhooks {
  import opened Wrappers

  /** The TwiML verbs the routes emit. */
  datatype Verb =
    | Dial(number: string, timeout: nat, action: string)
    | Say(text: string, voice: string, language: string)
    | Record(maxLength: nat, action: string)

  /** A response body: plain text, or a TwiML document (`str(resp)`). */
  datatype Body = Text(text: string) | Twiml(verbs: seq<Verb>)

  /** What a Flask view returns: a body and an HTTP status (200 when the
      view returns only a body). */
  datatype Response = Response(body: Body, status: nat)

  /** The POSTed form fields, one value per field. */
  type Form = map<string, string>

  /** `request.form.get(key)` */
  function FormGet(form: Form, key: string): Option<string> {
    if key in form then Some(form[key]) else None
  }

  const HomePath: string := "/"
  const IncomingCallPath: string := "/webhook/incoming-call"
  const AiTakeoverPath: string := "/webhook/ai-takeover"
  const ProcessRecordingPath: string := "/webhook/process-recording"

  /** The POST webhooks Twilio can be sent to (`/` answers GET only). */
  const CallbackRoutes: set<string> := {IncomingCallPath, AiTakeoverPath, ProcessRecordingPath}

  const HomeMessage: string := "Le serveur BATI-EURO est en ligne sur Render !"
  const ArtisanMobile: string := "+33600000000"
  const DialTimeout: nat := 10
  const Greeting: string := "Je suis l'assistant IA. Laissez votre message."
  const GreetingVoice: string := "alice"
  const GreetingLanguage: string := "fr-FR"
  const MaxRecordingSeconds: nat := 60
  const CompletedStatus: string := "completed"
  const Finished: string := "Terminé"
  const Acknowledged: string := "OK"

  /** The callback targets a list of verbs hands to Twilio, in order. */
  function VerbTargets(vs: seq<Verb>): seq<string> {
    if vs == [] then []
    else
      var rest := VerbTargets(vs[1..]);
      match vs[0]
      case Dial(_, _, action) => [action] + rest
      case Record(_, action) => [action] + rest
      case Say(_, _, _) => rest
  }

  /** The callback targets of a response; a plain-text body has none. */
  function ActionTargets(r: Response): seq<string> {
    match r.body
    case Text(_) => []
    case Twiml(vs) => VerbTargets(vs)
  }

  /** Every callback Twilio is told to use is a webhook the application serves. */
  predicate TargetsServed(r: Response) {
    forall i :: 0 <= i < |ActionTargets(r)| ==> ActionTargets(r)[i] in CallbackRoutes
  }

  /** Twilio's `VoiceResponse`: a TwiML document built up verb by verb. */
  class VoiceResponse {
    var verbs: seq<Verb>

    constructor ()
      ensures verbs == []
    {
      verbs := [];
    }

    /** `resp.append(verb)` */
    method Append(v: Verb)
      modifies this
      ensures verbs == old(verbs) + [v]
    {
      verbs := verbs + [v];
    }

    /** `resp.say(text, voice=..., language=...)` */
    method Say(text: string, voice: string, language: string)
      modifies this
      ensures verbs == old(verbs) + [Verb.Say(text, voice, language)]
    {
      verbs := verbs + [Verb.Say(text, voice, language)];
    }

    /** `resp.record(maxLength=..., action=...)` */
    method Record(maxLength: nat, action: string)
      modifies this
      ensures verbs == old(verbs) + [Verb.Record(maxLength, action)]
    {
      verbs := verbs + [Verb.Record(maxLength, action)];
    }

    /** `str(resp)` */
    function Render(): (b: Body)
      reads this
      ensures b.Twiml? && b.verbs == verbs
    {
      Twiml(verbs)
    }
  }

  /** `GET /`: a fixed status line, with no callback. */
  function Home(): (r: Response)
    ensures r == Response(Text(HomeMessage), 200)
    ensures ActionTargets(r) == []
  {
    Response(Text(HomeMessage), 200)
  }

  /** `POST /webhook/incoming-call`: whatever the request, forward the call
      to the artisan's mobile for at most 10 seconds and report the outcome
      to the AI takeover route. */
  method IncomingCall(form: Form) returns (r: Response)
    ensures r == Response(Twiml([Dial(ArtisanMobile, DialTimeout, AiTakeoverPath)]), 200)
    ensures ActionTargets(r) == [AiTakeoverPath] && TargetsServed(r)
  {
    var resp := new VoiceResponse();
    var dial := Dial(ArtisanMobile, DialTimeout, AiTakeoverPath);
    resp.Append(dial);
    r := Response(resp.Render(), 200);
    assert VerbTargets(r.body.verbs[1..]) == [];
  }

  /** `POST /webhook/ai-takeover`: a dial that completed ends the call with
      no voice verb; any other outcome, or none, plays the greeting and
      records up to 60 seconds for the recording route. */
  method AiTakeover(form: Form) returns (r: Response)
    ensures r.status == 200
    ensures r.body.Text? <==> FormGet(form, "DialCallStatus") == Some(CompletedStatus)
    ensures r.body.Text? ==> r.body == Text(Finished)
    ensures r.body.Twiml? ==> r.body.verbs == [
      Verb.Say(Greeting, GreetingVoice, GreetingLanguage),
      Verb.Record(MaxRecordingSeconds, ProcessRecordingPath)]
    ensures ActionTargets(r) == if r.body.Text? then [] else [ProcessRecordingPath]
    ensures TargetsServed(r)
  {
    if FormGet(form, "DialCallStatus") == Some(CompletedStatus) {
      return Response(Text(Finished), 200);
    }
    var resp := new VoiceResponse();
    resp.Say(Greeting, GreetingVoice, GreetingLanguage);
    resp.Record(MaxRecordingSeconds, ProcessRecordingPath);
    r := Response(resp.Render(), 200);
    assert VerbTargets(r.body.verbs[1..][1..]) == [];
    assert VerbTargets(r.body.verbs[1..]) == [ProcessRecordingPath];
  }

  /** `POST /webhook/process-recording`: acknowledges whatever was posted,
      and the call flow ends here (no further callback). */
  function ProcessRecording(form: Form): (r: Response)
    ensures r == Response(Text(Acknowledged), 200)
    ensures ActionTargets(r) == []
  {
    Response(Text(Acknowledged), 200)
  }
}
