/** The two labels through which the deployment controller and the swiftlets talk, and every
    way either of them rewrites a pod's labels
    (pkg/controller/swiftdeployment/swiftdeployment_controller.go:378-454,
    pkg/swiftlet/controller.go:225-271). */
module SwiftLabels {

  /** `swiftkube.io/state`: absent, one of the three values the controllers use, or another text. */
  datatype State = NoState | Running | Runnable | Sleeping | Foreign(text: string)

  /** `swiftkube.io/sleep`. */
  datatype Sleep = NoSleep | Wait | Done | OtherSleep(text: string)

  /** A pod's labels; `rest` stands for all labels but these two. */
  datatype Labels = Labels(state: State, sleep: Sleep, rest: map<string, string>)

  /** The two processes a swiftlet can run on a pod. */
  datatype Process = NoProcess | Activation | Suspension

  /** The selector `swiftkube.io/state in (running, runnable)`. */
  predicate Active(l: Labels) {
    l.state == Running || l.state == Runnable
  }

  predicate Asleep(l: Labels) {
    l.state == Sleeping && l.sleep == Done
  }

  // ----- the deployment controller's three writes

  datatype Command = Adopt | Suspend | Activate

  /** When the controller issues a command, judged by the labels it has read. */
  predicate Applies(c: Command, l: Labels) {
    match c
    case Adopt => l.state == NoState
    case Suspend => Active(l)
    case Activate => l.state == Sleeping
  }

  function Commanded(c: Command, l: Labels): Labels {
    match c
    case Adopt => l.(state := Running)
    case Suspend => l.(state := Sleeping, sleep := Wait)
    case Activate => l.(state := Runnable)
  }

  // ----- the swiftlet's reaction

  function Reaction(l: Labels): Process {
    if l.state == Runnable then Activation
    else if l.state == Sleeping && l.sleep != Done then Suspension
    else NoProcess
  }

  function Published(l: Labels): Labels {
    match Reaction(l)
    case Activation => l.(state := Running)
    case Suspension => l.(sleep := Done)
    case NoProcess => l
  }
}
