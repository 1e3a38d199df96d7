/** Chat-history messages and get_text_from_message (backend/its.py). */
module Messages {
  import opened Json

  /** A history entry is either a dict decoded from JSON (the form main.py
      stores and the interactive driver appends), any other decoded value,
      or a chat-library Content object, of which only the text of each
      part is visible here. */
  datatype Message =
    | Raw(value: Json)
    | Content(parts: seq<string>)

  /** A dict entry that get_text_from_message can read without an exception:
      a "parts" list whose first element is a dict with a "text" key. */
  predicate HasDictText(m: Message)
  {
    && m.Raw?
    && m.value.JObject?
    && "parts" in m.value.fields
    && m.value.fields["parts"].JArray?
    && |m.value.fields["parts"].items| > 0
    && m.value.fields["parts"].items[0].JObject?
    && "text" in m.value.fields["parts"].items[0].fields
  }

  /** message["parts"][0]["text"] for a dict, message.parts[0].text for an
      object; "" whenever a key is missing, a list is empty or a value has
      the wrong type (the KeyError, IndexError, TypeError and AttributeError
      that the source catches). */
  function GetTextFromMessage(m: Message): (r: Json)
    ensures HasDictText(m) ==> r == m.value.fields["parts"].items[0].fields["text"]
    ensures m.Content? && m.parts != [] ==> r == JStr(m.parts[0])
    ensures !HasDictText(m) && !(m.Content? && m.parts != []) ==> r == JStr("")
  {
    match m
    case Content(parts) => if parts == [] then JStr("") else JStr(parts[0])
    case Raw(JObject(d)) =>
      if "parts" !in d then JStr("")
      else (
        match d["parts"]
        case JArray(items) =>
          if items == [] then JStr("")
          else (
            match items[0]
            case JObject(part) => if "text" in part then part["text"] else JStr("")
            case _ => JStr("")  // str, list, number, bool or None indexed by "text"
          )
        case _ => JStr("")      // a dict indexed by 0, or a str, number, bool or None
      )
    case Raw(_) => JStr("")     // not a dict and no .parts attribute
  }

  /** One entry of the stored conversation: {"role": role, "parts": [{"text": text}]}. */
  datatype Turn = Turn(role: string, text: string)

  function UserTurn(text: string): Turn { Turn("user", text) }

  function ModelTurn(text: string): Turn { Turn("model", text) }

  /** The dict a turn is stored as. */
  function ToMessage(t: Turn): Message
  {
    Raw(JObject(map[
      "role" := JStr(t.role),
      "parts" := JArray([JObject(map["text" := JStr(t.text)])])
    ]))
  }

  /** Reading back the text of a stored turn gives the text that was stored. */
  lemma TextRoundTrip(t: Turn)
    ensures HasDictText(ToMessage(t))
    ensures GetTextFromMessage(ToMessage(t)) == JStr(t.text)
  {
  }

  /** A reply that loses its parts reads as the empty text, never an error. */
  lemma MissingPartsReadsEmpty(role: Json)
    ensures GetTextFromMessage(Raw(JObject(map["role" := role]))) == JStr("")
    ensures GetTextFromMessage(Raw(JObject(map["parts" := JArray([])]))) == JStr("")
    ensures GetTextFromMessage(Raw(JObject(map["parts" := JStr("abc")]))) == JStr("")
    ensures GetTextFromMessage(Content([])) == JStr("")
  {
  }
}
