/** The states of scans and of module runs. */
module Domain {
  datatype ScanStatus = Queued | Running | Completed | CompletedWithWarnings | Failed | Canceled
  {
    predicate IsTerminal() {
      this != Queued && this != Running
    }
  }

  datatype ModuleStatus = ModuleQueued | ModuleRunning | Done | ModuleFailed | Skipped | NotApplicable | Interrupted
}
