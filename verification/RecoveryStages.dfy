/** The recoveries a Codex stream has left before it has shown anything visible. */
module RecoveryStages {

  datatype Stage = FreshWebSocket | HttpSse | RecoveryDone

  function StagesLeft(s: Stage): nat {
    match s case FreshWebSocket => 2 case HttpSse => 1 case RecoveryDone => 0
  }
}
