/** `OpenAI_Observation`: a record of a state, a reward, a transition (the next state) and an
    action, read through getters and replaced through setters that report success as a Result,
    and the factory that builds one. */
module TorchObservation {
  import opened Wrappers

  /** The error the getters, setters and factory declare; plain attribute access never raises it. */
  datatype ObservationError = ValueError

  /** The four fields as a value. */
  datatype Fields<S, T, U, V> = Fields(state: S, reward: T, transition: U, action: V)

  class OpenAIObservation<S, T, U, V> {
    var state: S
    var reward: T
    var transition: U
    var action: V

    function View(): Fields<S, T, U, V>
      reads this
    {
      Fields(state, reward, transition, action)
    }

    constructor (state: S, reward: T, transition: U, action: V)
      ensures View() == Fields(state, reward, transition, action)
    {
      this.state := state;
      this.reward := reward;
      this.transition := transition;
      this.action := action;
    }

    function GetState(): (r: Result<S, ObservationError>)
      reads this
      ensures r.Ok? && r.value == View().state
    {
      Ok(state)
    }

    function GetReward(): (r: Result<T, ObservationError>)
      reads this
      ensures r.Ok? && r.value == View().reward
    {
      Ok(reward)
    }

    /** `get_next_state` reads the `transition` field. */
    function GetNextState(): (r: Result<U, ObservationError>)
      reads this
      ensures r.Ok? && r.value == View().transition
    {
      Ok(transition)
    }

    function GetAction(): (r: Result<V, ObservationError>)
      reads this
      ensures r.Ok? && r.value == View().action
    {
      Ok(action)
    }

    method SetState(state: S) returns (r: Result<(), ObservationError>)
      modifies this
      ensures r == Ok(()) && View() == old(View()).(state := state)
    {
      this.state := state;
      r := Ok(());
    }

    method SetReward(reward: T) returns (r: Result<(), ObservationError>)
      modifies this
      ensures r == Ok(()) && View() == old(View()).(reward := reward)
    {
      this.reward := reward;
      r := Ok(());
    }

    /** `set_next_state_` writes the `transition` field. */
    method SetNextState(nextState: U) returns (r: Result<(), ObservationError>)
      modifies this
      ensures r == Ok(()) && View() == old(View()).(transition := nextState)
    {
      this.transition := nextState;
      r := Ok(());
    }

    method SetAction(action: V) returns (r: Result<(), ObservationError>)
      modifies this
      ensures r == Ok(()) && View() == old(View()).(action := action)
    {
      this.action := action;
      r := Ok(());
    }
  }

  /** `OpenAI_ObservationFactory.new`: always succeeds with the four values stored as given. */
  method New<S, T, U, V>(state: S, reward: T, transition: U, action: V) returns (r: Result<OpenAIObservation<S, T, U, V>, ObservationError>)
    ensures r.Ok? && fresh(r.value)
    ensures r.value.View() == Fields(state, reward, transition, action)
  {
    var observation := new OpenAIObservation(state, reward, transition, action);
    r := Ok(observation);
  }

  /** The setter test: starting from (0, 1, 2, 3), setting (3, 2, 1, 0) field by field makes the
      getters return (3, 2, 1, 0); each setter leaves the other three fields alone. */
  method SettersScenario() returns (before: Fields<int, int, int, int>, after: Fields<int, int, int, int>)
    ensures before == Fields(0, 1, 2, 3) && after == Fields(3, 2, 1, 0)
  {
    var created := New(0, 1, 2, 3);
    var observation := created.value;
    before := Fields(observation.GetState().value, observation.GetReward().value,
                     observation.GetNextState().value, observation.GetAction().value);
    var _ := observation.SetState(3);
    var _ := observation.SetReward(2);
    var _ := observation.SetNextState(1);
    var _ := observation.SetAction(0);
    after := Fields(observation.GetState().value, observation.GetReward().value,
                    observation.GetNextState().value, observation.GetAction().value);
  }
}
