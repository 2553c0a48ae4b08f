/**
 * The intent-to-response dispatcher of main.py: nodes that map intent labels
 * to canned answers, a bot that registers nodes by name and keeps one current
 * node, and the turn that routes a user message to a canned answer or to the
 * language-model fallback.
 *
 * The two language-model calls are parameters: `classify` answers with an
 * intent label for the user's message, `fallback` answers the message freely.
 * A turn also reports the external calls it made, in order.
 */
module Chat {
  import opened Wrappers
  import opened Text

  const NoStartNodeError: string := "Error: No starting node set."

  /** An external call made during a turn, with the text it was given. */
  datatype ExternalCall = ClassifyCall(input: string) | FallbackCall(input: string)

  /** A named table from intent labels to canned responses. */
  class ChatNode {
    const name: string
    var intents: map<string, string>

    constructor (name: string)
      ensures this.name == name && intents == map[]
    {
      this.name := name;
      intents := map[];
    }

    /** Stores `response` for `intent`, replacing an earlier one; no other intent changes. */
    method AddIntent(intent: string, response: string)
      modifies this
      ensures intents == old(intents)[intent := response]
      ensures GetResponse(intent) == Some(response)
      ensures forall other :: other != intent ==> GetResponse(other) == old(GetResponse(other))
    {
      intents := intents[intent := response];
    }

    /** The stored response for `intent`, or None when there is none; never fails. */
    function GetResponse(intent: string): (r: Option<string>)
      reads this
      ensures r.None? <==> intent !in intents
      ensures r.Some? ==> r.value == intents[intent]
    {
      if intent in intents then Some(intents[intent]) else None
    }
  }

  /** A registry of nodes by name, with the node that answers the user. */
  class ChatBot {
    var nodes: map<string, ChatNode>
    var current: ChatNode?

    /** Every node is registered under its own name. */
    ghost predicate Valid()
      reads this
    {
      forall key :: key in nodes ==> nodes[key].name == key
    }

    constructor ()
      ensures Valid() && nodes == map[] && current == null
    {
      nodes := map[];
      current := null;
    }

    /** Registers `node` under its name, replacing a node of the same name; the current node stays as it was. */
    method AddNode(node: ChatNode)
      requires Valid()
      modifies this
      ensures Valid()
      ensures nodes == old(nodes)[node.name := node]
      ensures node.name in nodes && nodes[node.name] == node
      ensures forall key :: key in old(nodes) && key != node.name ==> key in nodes && nodes[key] == old(nodes[key])
      ensures current == old(current)
    {
      nodes := nodes[node.name := node];
    }

    /** Makes the node registered as `nodeName` current, or clears the current node when there is none. */
    method SetStartNode(nodeName: string)
      requires Valid()
      modifies this
      ensures Valid() && nodes == old(nodes)
      ensures nodeName in nodes ==> current == nodes[nodeName]
      ensures nodeName !in nodes ==> current == null
      ensures current != null ==> current.name == nodeName
    {
      current := if nodeName in nodes then nodes[nodeName] else null;
    }

    /**
     * One turn. Without a current node the answer is the fixed error and no
     * external call is made. Otherwise the classifier's answer is normalised
     * and looked up on the current node: a non-empty canned response is the
     * answer; a missing or empty one sends the message to the fallback.
     * The method changes nothing: it has no modifies clause.
     */
    method HandleInput(userInput: string, classify: string -> string, fallback: string -> string)
      returns (reply: string, calls: seq<ExternalCall>)
      ensures current == null ==> reply == NoStartNodeError && calls == []
      ensures current != null ==>
        var intent := Normalise(classify(userInput));
        var canned := intent in current.intents && current.intents[intent] != "";
        && (canned ==> reply == current.intents[intent] && calls == [ClassifyCall(userInput)])
        && (!canned ==> reply == fallback(userInput) && calls == [ClassifyCall(userInput), FallbackCall(userInput)])
    {
      if current == null {
        return NoStartNodeError, [];
      }
      var intent := Normalise(classify(userInput));
      calls := [ClassifyCall(userInput)];
      var response := current.GetResponse(intent);
      if response.Some? && response.value != "" {
        return response.value, calls;
      }
      calls := calls + [FallbackCall(userInput)];
      reply := fallback(userInput);
    }
  }

  const GreetingIntents: map<string, string> := map[
    "hello" := "Hi there! How can I assist you?",
    "help" := "Sure, I can help! What do you need assistance with?",
    "goodbye" := "Goodbye! Have a great day."
  ]
  const HelpIntents: map<string, string> := map[
    "info" := "I can provide information on various topics. Ask me anything!",
    "back" := "Returning to greeting..."
  ]
  const GoodbyeIntents: map<string, string> := map[
    "bye" := "Farewell! See you next time."
  ]

  /** The wiring done when the server starts: three nodes, "greeting" current. */
  method Startup() returns (bot: ChatBot)
    ensures fresh(bot) && bot.Valid()
    ensures bot.nodes.Keys == {"greeting", "help", "goodbye"}
    ensures bot.nodes["greeting"].intents == GreetingIntents
    ensures bot.nodes["help"].intents == HelpIntents
    ensures bot.nodes["goodbye"].intents == GoodbyeIntents
    ensures bot.current == bot.nodes["greeting"]
  {
    bot := new ChatBot();
    var greeting := NewGreetingNode();
    var help := NewHelpNode();
    var goodbye := NewGoodbyeNode();

    bot.AddNode(greeting);
    bot.AddNode(help);
    bot.AddNode(goodbye);
    assert bot.nodes == map["greeting" := greeting, "help" := help, "goodbye" := goodbye];

    bot.SetStartNode("greeting");
  }

  method NewGreetingNode() returns (node: ChatNode)
    ensures fresh(node) && node.name == "greeting" && node.intents == GreetingIntents
  {
    node := new ChatNode("greeting");
    node.AddIntent("hello", "Hi there! How can I assist you?");
    node.AddIntent("help", "Sure, I can help! What do you need assistance with?");
    node.AddIntent("goodbye", "Goodbye! Have a great day.");
  }

  method NewHelpNode() returns (node: ChatNode)
    ensures fresh(node) && node.name == "help" && node.intents == HelpIntents
  {
    node := new ChatNode("help");
    node.AddIntent("info", "I can provide information on various topics. Ask me anything!");
    node.AddIntent("back", "Returning to greeting...");
  }

  method NewGoodbyeNode() returns (node: ChatNode)
    ensures fresh(node) && node.name == "goodbye" && node.intents == GoodbyeIntents
  {
    node := new ChatNode("goodbye");
    node.AddIntent("bye", "Farewell! See you next time.");
  }

  /** The greeting node has no empty answer and none of the other nodes' intents. */
  lemma GreetingTexts()
    ensures forall intent :: intent in GreetingIntents ==> GreetingIntents[intent] != ""
    ensures "info" !in GreetingIntents && "back" !in GreetingIntents && "bye" !in GreetingIntents
  {
  }

  /** What the started bot answers: the greeting node's text for its three intents, the fallback otherwise. */
  ghost predicate AnsweredByGreeting(userInput: string, reply: string, classify: string -> string, fallback: string -> string)
  {
    var intent := Normalise(classify(userInput));
    && (intent in GreetingIntents ==> reply == GreetingIntents[intent])
    && (intent !in GreetingIntents ==> reply == fallback(userInput))
  }

  /**
   * Two turns with the bot as wired at startup. The greeting node stays
   * current, so both turns are answered by it; intents registered only on
   * the other nodes ("info", "back", "bye") go to the fallback.
   */
  method TwoTurnsAfterStartup(first: string, second: string, classify: string -> string, fallback: string -> string)
    returns (firstReply: string, secondReply: string)
    ensures AnsweredByGreeting(first, firstReply, classify, fallback)
    ensures AnsweredByGreeting(second, secondReply, classify, fallback)
    ensures Normalise(classify(first)) == "hello" ==> firstReply == "Hi there! How can I assist you?"
    ensures Normalise(classify(second)) in {"info", "back", "bye"} ==> secondReply == fallback(second)
  {
    var bot := Startup();
    GreetingTexts();
    var firstCalls, secondCalls;
    firstReply, firstCalls := bot.HandleInput(first, classify, fallback);
    secondReply, secondCalls := bot.HandleInput(second, classify, fallback);
  }
}
