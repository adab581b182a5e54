/**
 * The phone menu of router.py. A voice response is a sequence of verbs that
 * the handlers build by appending, one call at a time; `ivr` plays the menu
 * and gathers one digit, `handle_input` dispatches on that digit.
 */
module IvrRouter {
  import opened Wrappers

  /** One instruction of a voice response. A gather holds the verbs played while it waits for input. */
  datatype Verb =
    | Say(text: string)
    | Gather(numDigits: nat, action: string, httpMethod: string, nested: seq<Verb>)
    | Dial(number: string)
    | Redirect(url: string)

  /** The forwarding numbers of the three departments; the last two are not yet assigned. */
  const Pathway1 := "+12494965822"
  const Pathway2 := ""
  const Pathway3 := ""

  const IvrPath := "/ivr"
  const HandleInputPath := "/handle_input"

  const Greeting := "Press 1 to sell your vehicle, Press 2 for unwanted vehicle removal, Press 3 for used auto parts."
  const Prompt := "Please enter your choice."
  const SalesMessage := "Connecting you to the vehicle sales department."
  const RemovalMessage := "Connecting you to the unwanted vehicle removal department."
  const PartsMessage := "Connecting you to the used auto parts department."
  const InvalidMessage := "Invalid choice. I will repeat the message."

  /** A response under construction: each call appends one verb. */
  class VoiceResponse {
    var verbs: seq<Verb>

    constructor ()
      ensures verbs == []
    {
      verbs := [];
    }

    method Say(text: string)
      modifies this
      ensures verbs == old(verbs) + [Verb.Say(text)]
    {
      verbs := verbs + [Verb.Say(text)];
    }

    /** Appends a gather; `nested` are the verbs played inside it. */
    method Gather(numDigits: nat, action: string, httpMethod: string, nested: seq<Verb>)
      modifies this
      ensures verbs == old(verbs) + [Verb.Gather(numDigits, action, httpMethod, nested)]
    {
      verbs := verbs + [Verb.Gather(numDigits, action, httpMethod, nested)];
    }

    method Dial(number: string)
      modifies this
      ensures verbs == old(verbs) + [Verb.Dial(number)]
    {
      verbs := verbs + [Verb.Dial(number)];
    }

    method Redirect(url: string)
      modifies this
      ensures verbs == old(verbs) + [Verb.Redirect(url)]
    {
      verbs := verbs + [Verb.Redirect(url)];
    }
  }

  /** The menu: the greeting, then a gather of one digit posted to `/handle_input` that prompts for a choice. */
  method Ivr() returns (verbs: seq<Verb>)
    ensures |verbs| == 2 && verbs[0] == Verb.Say(Greeting)
    ensures verbs[1].Gather? && verbs[1].numDigits == 1 && verbs[1].action == HandleInputPath
    ensures verbs[1].httpMethod == "POST" && verbs[1].nested == [Verb.Say(Prompt)]
  {
    var response := new VoiceResponse();
    response.Say(Greeting);
    response.Gather(1, HandleInputPath, "POST", [Verb.Say(Prompt)]);
    verbs := response.verbs;
  }

  /** The digit a caller must press to reach a department. */
  predicate IsMenuChoice(digits: Option<string>) {
    digits == Some("1") || digits == Some("2") || digits == Some("3")
  }

  /**
   * The dispatch on the pressed digit (`Digits`, absent when none was sent):
   * always one `Say`, followed by a `Dial` to the chosen department for 1, 2
   * or 3, and otherwise by a `Redirect` back to the menu.
   */
  method HandleInput(digits: Option<string>) returns (verbs: seq<Verb>)
    ensures |verbs| == 2 && verbs[0].Say? && (verbs[1].Dial? || verbs[1].Redirect?)
    ensures verbs[1].Dial? <==> IsMenuChoice(digits)
    ensures digits == Some("1") ==> verbs == [Verb.Say(SalesMessage), Verb.Dial(Pathway1)]
    ensures digits == Some("2") ==> verbs == [Verb.Say(RemovalMessage), Verb.Dial(Pathway2)]
    ensures digits == Some("3") ==> verbs == [Verb.Say(PartsMessage), Verb.Dial(Pathway3)]
    ensures !IsMenuChoice(digits) ==> verbs == [Verb.Say(InvalidMessage), Verb.Redirect(IvrPath)]
  {
    var response := new VoiceResponse();
    if digits == Some("1") {
      response.Say(SalesMessage);
      response.Dial(Pathway1);
    } else if digits == Some("2") {
      response.Say(RemovalMessage);
      response.Dial(Pathway2);
    } else if digits == Some("3") {
      response.Say(PartsMessage);
      response.Dial(Pathway3);
    } else {
      response.Say(InvalidMessage);
      response.Redirect(IvrPath);
    }
    verbs := response.verbs;
  }
}
