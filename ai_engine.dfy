/** The rule-based hockey opponent (api/ai_engine.py): a three-state machine
    whose state is set from the game state on every decision, and which then
    answers with one of the actions of that state. */
module AiEngine {
  import opened Wrappers

  /** The values the `state` field takes: "idle", "attacking", "defending". */
  datatype AiState = Idle | Attacking | Defending

  /** The actions available in each state, in the order the source lists them. */
  function ActionsIn(s: AiState): (actions: seq<string>)
    ensures |actions| >= 2
  {
    match s
    case Attacking => ["skate_forward", "pass_puck", "shoot_puck"]
    case Defending => ["skate_back", "check_player", "block_shot"]
    case Idle => ["skate_around", "look_for_puck"]
  }

  /** The state a decision moves to: defending while the player holds the
      puck, attacking while the AI holds it, and idle otherwise, including
      when the game state has no "puck_owner" entry. */
  function StateFor(gameState: map<string, string>): (s: AiState)
    ensures s == Defending <==> "puck_owner" in gameState && gameState["puck_owner"] == "player"
    ensures s == Attacking <==> "puck_owner" in gameState && gameState["puck_owner"] == "ai"
    ensures s == Idle <==>
      "puck_owner" !in gameState || gameState["puck_owner"] !in {"player", "ai"}
  {
    var puckOwner := if "puck_owner" in gameState then Some(gameState["puck_owner"]) else None;
    if puckOwner == Some("player") then Defending
    else if puckOwner == Some("ai") then Attacking
    else Idle
  }

  /** The state an action belongs to, if it is one of the AI's actions. */
  function StateOfAction(action: string): (s: Option<AiState>)
    ensures s.Some? ==> action in ActionsIn(s.value)
  {
    if action in ActionsIn(Attacking) then Some(Attacking)
    else if action in ActionsIn(Defending) then Some(Defending)
    else if action in ActionsIn(Idle) then Some(Idle)
    else None
  }

  /** No action is shared by two states, so an action reveals the state the
      AI was in when it chose it. */
  lemma ActionDeterminesState(s: AiState, action: string)
    requires action in ActionsIn(s)
    ensures StateOfAction(action) == Some(s)
    ensures forall t :: t != s ==> action !in ActionsIn(t)
  {
  }

  /** `HockeyAI`: the object keeps the state of its last decision. */
  class HockeyAI {
    var state: AiState

    /** A new AI starts idle. */
    constructor()
      ensures state == Idle
    {
      state := Idle;
    }

    /** `get_action_in_state`: any one of the current state's actions (the
        source draws it at random). */
    method GetActionInState() returns (action: string)
      ensures action in ActionsIn(state)
    {
      var actions := ActionsIn(state);
      assert actions[0] in actions;
      action :| action in actions;
    }

    /** `decide_action`: overwrites the state from the game state alone,
        whatever it was before, and answers with an action of the new state.
        The body keeps the source's branches; `StateFor` is their
        specification. */
    method DecideAction(gameState: map<string, string>) returns (action: string)
      modifies this
      ensures state == StateFor(gameState)
      ensures action in ActionsIn(state)
    {
      var puckOwner := if "puck_owner" in gameState then Some(gameState["puck_owner"]) else None;
      if puckOwner == Some("player") {
        state := Defending;
      } else if puckOwner == Some("ai") {
        state := Attacking;
      } else {
        state := Idle;
      }
      action := GetActionInState();
    }
  }

  /** With the player on the puck the AI answers with a defensive action,
      and with the AI on the puck with an attacking one. */
  lemma PuckOwnerSelectsActions(gameState: map<string, string>, action: string)
    requires "puck_owner" in gameState
    requires action in ActionsIn(StateFor(gameState))
    ensures gameState["puck_owner"] == "player" ==>
      action in ["skate_back", "check_player", "block_shot"]
    ensures gameState["puck_owner"] == "ai" ==>
      action in ["skate_forward", "pass_puck", "shoot_puck"]
  {
  }
}
